/** One turn of the agent: stream, record, call tools, fold in what the user typed,
    compact when the context has grown, and stop when told to.

    The provider, the tools, the summarizer, the user and whoever else writes to the
    log are oracles: any value they could return is considered. */
module TurnLoop {
  import opened EventLog
  import opened HiddenRanges
  import opened Projection
  import opened Compacting
  import opened CompactionRuns
  import opened BatchRuns
  import opened TurnPlans
  import opened TurnSync
  import opened TurnTrace
  import opened TurnDeeds
  import opened Requests
  import Splice
  import Todos

  const MAX_TODO_NUDGES: nat := 2
  const POLL_EVERY: nat := 16
  const EXHAUSTED: string := "stopped after 4294967295 iterations"

  class Turn {
    // The host's side: the session's log, the nudges logged and not polled yet, and
    // the cancel flag.
    var log: seq<Record>
    var inbox: seq<string>
    var raised: bool
    const world: World
    /** The compaction policy as it reads before each completion. */
    const settings: nat -> Policy
    /** Tools whose success hands control back to the user. */
    const endingTools: set<string>

    // The turn's own state.
    var messages: seq<Message>
    var origins: seq<nat>
    var contextTokens: nat
    var billedTo: nat
    var iterations: nat
    var promptTokens: nat
    var completionTokens: nat
    var cost: nat
    var toolsUsed: seq<string>
    var pending: seq<string>
    var backoffUntil: nat
    var cancelled: bool
    var todoNudges: nat
    var todoFingerprint: string

    // What is observed about it.
    ghost var trace: seq<Act>
    ghost var said: seq<string>
    ghost var attempts: seq<Attempt>
    ghost var replies: nat
    ghost var nudges: nat
    ghost var sound: bool
    ghost var batch: Option<Batch>
    ghost var skipped: seq<Call>
    ghost var answering: bool

    constructor (log: seq<Record>, world: World, settings: nat -> Policy, raised: bool, endingTools: set<string>)
      requires Chronological(log) && world.start == |log| && world.since == LastAt(log)
      ensures this.log == log && this.world == world && this.settings == settings && this.raised == raised && this.endingTools == endingTools
      ensures messages == [] && origins == [] && contextTokens == 0 && billedTo == 0 && iterations == 0
      ensures inbox == [] && pending == [] && backoffUntil == 0 && !cancelled && todoNudges == 0
      ensures trace == [] && said == [] && attempts == [] && replies == 0 && nudges == 0 && batch == None && skipped == []
      ensures !answering
    {
      this.settings, batch, skipped, answering := settings, None, [], false;
      this.log, this.world, this.raised, this.endingTools, inbox := log, world, raised, endingTools, [];
      messages, origins, contextTokens, billedTo, iterations := [], [], 0, 0, 0;
      promptTokens, completionTokens, cost, toolsUsed := 0, 0, 0, [];
      pending, backoffUntil, cancelled, todoNudges, todoFingerprint := [], 0, false, 0, "";
      trace, said, attempts, replies, nudges, sound := [], [], [], 0, 0, false;
    }

    /** Everything the turn keeps at each step, with the calls `left` still unanswered and
        `n` completions opened. */
    ghost predicate Kept(left: seq<Call>, n: nat)
      reads this`log, this`inbox, this`raised, this`cancelled, this`trace, this`nudges, this`replies
      reads this`todoNudges, this`attempts, this`backoffUntil, this`sound, this`batch, this`skipped, this`answering
      reads this`messages, this`origins, this`contextTokens, this`billedTo
    {
      && TraceKept(n) && Logged(world, log, Ids(left), replies) && Ledger()
      && Served(world, log, trace, Now(left))
      && todoNudges <= MAX_TODO_NUDGES && Spaced(attempts) && BackedOff(attempts, backoffUntil)
      && ListKept(world, log, messages, origins, (contextTokens, billedTo), Ids(left), sound)
    }

    ghost function Now(left: seq<Call>): Standing
      reads this`batch, this`skipped, this`answering
    { Standing(batch, left, skipped, answering) }

    ghost predicate TraceKept(n: nat)
      reads this`trace, this`raised, this`cancelled, this`nudges
    {
      && (SawCancel(trace) ==> raised) && (cancelled ==> raised && SawCancel(trace))
      && IdleAfterCancel(trace) && nudges == NudgesSeen(trace) && Completions(trace) == n
      && RequestsFair(trace, world) && Watched(trace)
    }

    /** Every nudge logged since the turn began was polled once, in order, or still waits. */
    ghost predicate Ledger()
      reads this`log, this`trace, this`inbox
    { world.start <= |log| && NudgesLogged(log[world.start..]) == TextsSeen(trace) + inbox }

    /** Every nudge text a poll brought has been said once, in order, or waits: in the
        queue, or with a compaction that carries it. */
    ghost predicate Accounted(carried: seq<string>)
      reads this`trace, this`said, this`pending
    { TextsSeen(trace) == said + pending + carried }

    lemma {:induction false} KeptMeans(left: seq<Call>, n: nat)
      requires Kept(left, n)
      ensures TraceKept(n) && Logged(world, log, Ids(left), replies) && Ledger()
      ensures Served(world, log, trace, Now(left)) && Ids([]) == []
      ensures todoNudges <= MAX_TODO_NUDGES && Spaced(attempts) && BackedOff(attempts, backoffUntil)
      ensures ListKept(world, log, messages, origins, (contextTokens, billedTo), Ids(left), sound)
    {
      hide TraceKept, Logged, Ledger, Spaced, BackedOff, ListKept, Served;
      assert Ids([]) == [];
    }

    lemma {:induction false} KeptHolds(left: seq<Call>, n: nat)
      requires TraceKept(n) && Logged(world, log, Ids(left), replies) && Ledger()
      requires Served(world, log, trace, Now(left))
      requires todoNudges <= MAX_TODO_NUDGES && Spaced(attempts) && BackedOff(attempts, backoffUntil)
      requires ListKept(world, log, messages, origins, (contextTokens, billedTo), Ids(left), sound)
      ensures Kept(left, n)
    { hide TraceKept, Logged, Ledger, Spaced, BackedOff, ListKept, Served; }

    lemma {:induction false} AccountedNow(carried: seq<string>)
      ensures Accounted(carried) <==> TextsSeen(trace) == said + pending + carried
    { hide TextsSeen; }

    lemma {:induction false} LedgerNow()
      ensures Ledger() <==> world.start <= |log| && NudgesLogged(log[world.start..]) == TextsSeen(trace) + inbox
    { hide TextsSeen, NudgesLogged; }

    lemma {:induction false} TraceMeans(n: nat)
      requires TraceKept(n)
      ensures (SawCancel(trace) ==> raised) && (cancelled ==> raised && SawCancel(trace)) && IdleAfterCancel(trace) && Watched(trace)
      ensures nudges == NudgesSeen(trace) && Completions(trace) == n && RequestsFair(trace, world)
    { hide SawCancel, IdleAfterCancel, NudgesSeen, Completions, RequestsFair, Watched; }

    lemma {:induction false} TraceHolds(n: nat)
      requires (SawCancel(trace) ==> raised) && (cancelled ==> raised && SawCancel(trace)) && IdleAfterCancel(trace) && Watched(trace)
      requires nudges == NudgesSeen(trace) && Completions(trace) == n && RequestsFair(trace, world)
      ensures TraceKept(n)
    { hide SawCancel, IdleAfterCancel, NudgesSeen, Completions, RequestsFair, Watched; }

    /** What one more act does to a trace that nothing costly may join after a cancel. */
    lemma {:induction false} ActAdded(was: seq<Act>, a: Act)
      requires IdleAfterCancel(was) && Watched(was) && RequestsFair(was, world) && Fair(a, world)
      requires Costly(a) ==> !SawCancel(was) && JustLooked(was)
      ensures IdleAfterCancel(was + [a]) && Watched(was + [a]) && RequestsFair(was + [a], world)
      ensures SawCancel(was + [a]) <==> SawCancel(was) || ReportsCancel(a)
      ensures NudgesSeen(was + [a]) == NudgesSeen(was) + (if a.Polled? then NudgesIn(a.items) else 0)
      ensures Completions(was + [a]) == Completions(was) + (if a.Opened? then 1 else 0)
      ensures TextsSeen(was + [a]) == TextsSeen(was) + (if a.Polled? then NudgeTexts(a.items) else [])
      ensures !a.Polled? ==> TextsSeen(was + [a]) == TextsSeen(was)
    {
      hide IdleAfterCancel, Watched, RequestsFair, Fair, Costly, SawCancel, JustLooked, NudgesSeen, Completions, TextsSeen;
      hide NudgesIn, NudgeTexts, ReportsCancel;
      TraceAfter(was, a);
      TextsAfter(was, a);
      RequestsAfter(was, a, world);
      WatchedAfter(was, a);
    }

    lemma {:induction false} LoggedMeans(left: seq<Call>)
      requires Logged(world, log, Ids(left), replies)
      ensures Chronological(log) && SpansBehind(log) && world.start <= |log| && world.since <= LastAt(log)
      ensures world.calm ==> NothingHiddenSince(world.hidden, world.since)
    { hide Chronological, SpansBehind, LastAt, NothingHiddenSince; }

    // --- the world --------------------------------------------------------------------

    predicate MayArrive(more: seq<Record>)
      reads this`log
    {
      && (forall i | 0 <= i < |more| :: more[i].at > LastAt(log) && Foreign(more[i].event))
      && (forall i, j | 0 <= i < j < |more| :: more[i].at < more[j].at)
      && (world.calm ==> forall i | 0 <= i < |more| :: Quiet(more[i].event) || more[i].event.Nudge?)
    }

    lemma {:induction false} ArrivalsAre(more: seq<Record>)
      requires MayArrive(more)
      ensures Extends(log, more) && Arrivals(world, more) && forall i | 0 <= i < |more| :: Foreign(more[i].event)
    {}

    /** Whatever others log meanwhile; a nudge is logged before it can be polled. */
    method Others(ghost left: seq<Call>, ghost n: nat)
      requires Kept(left, n)
      modifies this`log, this`inbox
      ensures Kept(left, n) && old(log) <= log && LastCompaction(log) == LastCompaction(old(log))
    {
      hide Kept, TraceKept, Logged, Ledger, ListKept, Spaced, BackedOff, MayArrive, Foreign, NudgesLogged, TextsSeen;
      hide LastCompaction, Extends, Arrivals, Chronological, Served, Ids;
      var more: seq<Record> := *;
      if MayArrive(more) {
        ArrivalsAre(more);
        KeptMeans(left, n);
        LoggedMeans(left);
        LedgerNow();
        LoggedAfterForeign(world, log, Ids(left), replies, more);
        ServedAfterForeign(world, log, trace, Now(left), more);
        ListAfterOthers(world, log, messages, origins, (contextTokens, billedTo), Ids(left), sound, more);
        NudgesAfterAll(log, world.start, more);
        LastCompactionForeign(log, more);
        assert (log + more)[..|log|] == log;
        log := log + more;
        inbox := inbox + NudgesLogged(more);
        LedgerNow();
        KeptHolds(left, n);
      }
    }

    /** The host drains the inbox, but for a nudge just being logged; its raised flag
        repeats a cancel on every poll. */
    method PollInbox(ghost left: seq<Call>, ghost n: nat) returns (items: seq<InboxItem>)
      requires Kept(left, n)
      modifies this`log, this`inbox, this`raised, this`nudges, this`trace
      ensures Kept(left, n) && old(log) <= log && trace == old(trace) + [Polled(items)]
      ensures LastCompaction(log) == LastCompaction(old(log))
      ensures old(raised) ==> CancelItem in items
      ensures raised <==> CancelItem in items
      ensures nudges == old(nudges) + NudgesIn(items)
      ensures NudgeTexts(items) <= old(inbox)
    {
      hide Kept, TextsSeen, NudgesIn, NudgeTexts, LastCompaction;
      var k;
      items, k := TakeQueued();
      if raised && CancelItem !in items {
        CancelAddsNoText(items);
        items := items + [CancelItem];
      }
      TakeOut(items, k, left, n);
      Others(left, n);
    }

    /** The first `k` nudges of the queue have been reported; a reported cancel stands. */
    method TakeOut(items: seq<InboxItem>, k: nat, ghost left: seq<Call>, ghost n: nat)
      requires Kept(left, n) && k <= |inbox| && NudgeTexts(items) == inbox[..k] && (raised ==> CancelItem in items)
      modifies this`inbox, this`raised, this`nudges, this`trace
      ensures Kept(left, n) && trace == old(trace) + [Polled(items)] && (raised <==> CancelItem in items)
      ensures nudges == old(nudges) + NudgesIn(items)
    {
      hide Kept, TraceKept, Logged, Ledger, ListKept, Spaced, BackedOff, NudgesLogged, TextsSeen, NudgesIn, NudgeTexts;
      hide SawCancel, IdleAfterCancel, NudgesSeen, Completions, RequestsFair, Fair, Watched, JustLooked, Served, Ids;
      KeptMeans(left, n);
      TraceMeans(n);
      LedgerNow();
      PollAdded(trace, items);
      ServedAfterAct(world, log, trace, Now(left), Polled(items));
      trace := trace + [Polled(items)];
      raised := CancelItem in items;
      nudges := nudges + NudgesIn(items);
      assert inbox == inbox[..k] + inbox[k..];
      inbox := inbox[k..];
      assert TextsSeen(old(trace)) + old(inbox) == TextsSeen(trace) + inbox;
      LedgerNow();
      TraceHolds(n);
      KeptHolds(left, n);
    }

    lemma {:induction false} PollAdded(was: seq<Act>, items: seq<InboxItem>)
      requires IdleAfterCancel(was) && Watched(was) && RequestsFair(was, world)
      ensures var now := was + [Polled(items)];
              && IdleAfterCancel(now) && Watched(now) && RequestsFair(now, world)
              && (SawCancel(now) <==> SawCancel(was) || CancelItem in items)
              && NudgesSeen(now) == NudgesSeen(was) + NudgesIn(items) && Completions(now) == Completions(was)
              && TextsSeen(now) == TextsSeen(was) + NudgeTexts(items)
    {
      hide IdleAfterCancel, Watched, RequestsFair, Fair, SawCancel, JustLooked, NudgesSeen, Completions, TextsSeen, NudgesIn, NudgeTexts;
      OtherActsAreFair(Polled(items), world);
      ActAdded(was, Polled(items));
    }

    /** Any items whose nudges are the first `k` of the queue. */
    method TakeQueued() returns (items: seq<InboxItem>, k: nat)
      ensures k <= |inbox| && NudgeTexts(items) == inbox[..k]
    {
      var n: int := *;
      k := Min(Max(n, 0), |inbox|);
      var queue := inbox[..k];
      items := *;
      if NudgeTexts(items) != queue {
        items := seq(k, i requires 0 <= i < k => NudgeItem(queue[i]));
        AllNudges(items, queue);
      }
    }

    /** Records an act that is no tool run and opens no stream. */
    ghost method Witness(a: Act, left: seq<Call>, n: nat)
      requires Kept(left, n) && (a.Summarized? || a.ReadTodos?)
      requires a.Summarized? ==> !raised && JustLooked(trace)
      modifies this`trace
      ensures Kept(left, n) && trace == old(trace) + [a] && TextsSeen(trace) == TextsSeen(old(trace))
    {
      hide Kept, TraceKept, Logged, Ledger, ListKept, Spaced, BackedOff, NudgesLogged, TextsSeen, Ids;
      hide SawCancel, IdleAfterCancel, NudgesSeen, Completions, RequestsFair, Fair, Watched, JustLooked, Served;
      KeptMeans(left, n);
      TraceMeans(n);
      LedgerNow();
      OtherActsAreFair(a, world);
      ActAdded(trace, a);
      ServedAfterAct(world, log, trace, Now(left), a);
      trace := trace + [a];
      LedgerNow();
      TraceHolds(n);
      KeptHolds(left, n);
    }

    /** Logging gives an event a sequence above every other. */
    method Append(e: Event) returns (at: nat)
      requires Chronological(log)
      modifies this`log
      ensures at > LastAt(old(log)) && log == old(log) + [Record(at, e)] && Chronological(log)
    {
      var gap: int := *;
      at := LastAt(log) + 1 + Max(gap, 0);
      ChronologicalAppend(log, Record(at, e));
      log := log + [Record(at, e)];
    }

    method Push(message: Message, at: nat)
      modifies this`messages, this`origins
      ensures messages == old(messages) + [message] && origins == old(origins) + [at]
    {
      messages := messages + [message];
      origins := origins + [at];
    }

    /** Logs a note and pushes what it projects to. */
    method LogNote(text: string, ghost n: nat)
      requires Kept([], n)
      modifies this`log, this`messages, this`origins
      ensures Kept([], n) && old(log) <= log && |log| == |old(log)| + 1 && log[|old(log)|].event == SystemNote(text)
      ensures messages == old(messages) + [Render(SystemNote(text), false)]
    {
      hide Kept, TraceKept, Logged, Ledger, ListKept, Spaced, BackedOff, NudgesLogged, TextsSeen, Chronological, Served;
      var e := SystemNote(text);
      KeptMeans([], n);
      LoggedMeans([]);
      LedgerNow();
      var at := Append(e);
      ghost var rec := Record(at, e);
      NoteSettles(e);
      LoggedAfter(world, old(log), Ids([]), replies, rec);
      ServedAfterQuiet(world, old(log), trace, Now([]), rec);
      ListAfterPush(world, old(log), messages, origins, (contextTokens, billedTo), Ids([]), sound, rec);
      NudgesAfter(old(log), world.start, rec);
      Grown(old(log), rec);
      Push(Render(e, false), at);
      LedgerNow();
      KeptHolds([], n);
    }

    lemma {:induction false} NoteSettles(e: Event)
      requires e.SystemNote?
      ensures Ids([]) == [] && Settle(Some([]), e) == Some([]) && !Calling(e) && !e.Nudge? && !e.ContextCompacted?
    {}

    /** Logs a call's result and pushes it.  Either the call was run, right behind a look
        at the inbox that found no cancel, or it is answered as not run. */
    method LogResult(deed: Deed, ghost ran: bool, ghost rest: seq<Call>, ghost n: nat)
      requires Kept([deed.call] + rest, n)
      requires if ran then !raised && skipped == [] && JustLooked(trace) else !deed.ok && deed.output == NOT_RUN
      modifies this`log, this`messages, this`origins, this`trace, this`batch, this`skipped
      ensures Kept(rest, n) && old(log) <= log
      ensures messages == old(messages) + [deed.Result()]
      ensures trace == (if ran then old(trace) + [Invoked(deed)] else old(trace)) && TextsSeen(trace) == TextsSeen(old(trace))
      ensures skipped == if ran then [] else old(skipped) + [deed.call]
      ensures old(batch).Some? && batch == Some(old(batch).value.(oks := old(batch).value.oks + [deed.ok]))
    {
      hide Kept, TraceKept, Logged, Ledger, ListKept, Spaced, BackedOff, NudgesLogged, TextsSeen, Chronological, Served, Ids;
      hide SawCancel, IdleAfterCancel, NudgesSeen, Completions, RequestsFair, Watched, JustLooked, LastAt;
      ghost var left := [deed.call] + rest;
      KeptMeans(left, n);
      LoggedMeans(left);
      LedgerNow();
      var at := Append(ToolResult(deed.call.id, deed.ok, deed.output));
      ResultLogged(old(log), log[|old(log)|], deed, ran, rest, n);
      PushResult(deed, ran, at);
      if ran { TraceHolds(n); }
      LedgerNow();
      KeptHolds(rest, n);
    }

    method PushResult(deed: Deed, ghost ran: bool, at: nat)
      requires batch.Some?
      modifies this`messages, this`origins, this`trace, this`batch, this`skipped
      ensures messages == old(messages) + [deed.Result()] && origins == old(origins) + [at]
      ensures batch == Some(old(batch).value.(oks := old(batch).value.oks + [deed.ok]))
      ensures trace == if ran then old(trace) + [Invoked(deed)] else old(trace)
      ensures skipped == if ran then [] else old(skipped) + [deed.call]
    {
      Push(deed.Result(), at);
      batch := Some(batch.value.(oks := batch.value.oks + [deed.ok]));
      trace := if ran then trace + [Invoked(deed)] else trace;
      skipped := if ran then [] else skipped + [deed.call];
    }

    /** What a result just logged does to what the turn keeps. */
    lemma {:induction false} ResultLogged(was: seq<Record>, rec: Record, deed: Deed, ran: bool, rest: seq<Call>, n: nat)
      requires Logged(world, was, Ids([deed.call] + rest), replies) && Served(world, was, trace, Now([deed.call] + rest))
      requires ListKept(world, was, messages, origins, (contextTokens, billedTo), Ids([deed.call] + rest), sound)
      requires rec.at > LastAt(was) && rec.event == ToolResult(deed.call.id, deed.ok, deed.output)
      requires if ran then TraceKept(n) && !raised && skipped == [] && JustLooked(trace) else !deed.ok && deed.output == NOT_RUN
      ensures was <= was + [rec] && NudgesLogged((was + [rec])[world.start..]) == NudgesLogged(was[world.start..])
      ensures Logged(world, was + [rec], Ids(rest), replies) && batch.Some?
      ensures Served(world, was + [rec], if ran then trace + [Invoked(deed)] else trace,
                     Standing(Some(batch.value.(oks := batch.value.oks + [deed.ok])), rest,
                              if ran then [] else skipped + [deed.call], answering))
      ensures ListKept(world, was + [rec], messages + [deed.Result()], origins + [rec.at], (contextTokens, billedTo), Ids(rest), sound)
      ensures var now := if ran then trace + [Invoked(deed)] else trace;
              && TextsSeen(now) == TextsSeen(trace)
              && (ran ==> IdleAfterCancel(now) && Watched(now) && RequestsFair(now, world)
                          && NudgesSeen(now) == nudges && Completions(now) == n && !SawCancel(now) && !cancelled)
    {
      hide ListKept, NudgesLogged, Ids, LastAt, Chronological, Settled, CallingReplies, SpansBehind, NothingHiddenSince, Served;
      hide IdleAfterCancel, Watched, RequestsFair, NudgesSeen, Completions, SawCancel, JustLooked, TextsSeen;
      ResultSettles(deed, rest);
      LoggedAfter(world, was, Ids([deed.call] + rest), replies, rec);
      ListAfterPush(world, was, messages, origins, (contextTokens, billedTo), Ids([deed.call] + rest), sound, rec);
      NudgesAfter(was, world.start, rec);
      if ran {
        OtherActsAreFair(Invoked(deed), world);
        ActAdded(trace, Invoked(deed));
        ServedAfterDeed(world, was, trace, Now([deed.call] + rest), deed, rest, rec);
      } else {
        ServedAfterSkip(world, was, trace, Now([deed.call] + rest), deed.call, rest, rec);
      }
    }

    lemma {:induction false} ResultSettles(deed: Deed, rest: seq<Call>)
      ensures var e, owed := ToolResult(deed.call.id, deed.ok, deed.output), Ids([deed.call] + rest);
              && owed != [] && owed[0] == e.callId && owed[1..] == Ids(rest) && Settle(Some(owed), e) == Some(Ids(rest))
              && Render(e, false) == deed.Result() && !Calling(e)
    {
      assert Ids([deed.call] + rest)[1..] == Ids(rest);
    }

    // --- the inbox --------------------------------------------------------------------

    /** Reads mid-turn input.  Nudge text is queued in order; a cancel is sticky. */
    method DrainInbox(ghost left: seq<Call>, ghost n: nat) returns (interrupt: Interrupt, ghost items: seq<InboxItem>)
      requires Kept(left, n) && Accounted([])
      modifies this`log, this`inbox, this`raised, this`nudges, this`trace, this`pending, this`cancelled
      ensures Kept(left, n) && old(log) <= log && trace == old(trace) + [Polled(items)]
      ensures interrupt == Urgency(old(cancelled), items)
      ensures cancelled <==> interrupt.Cancelled?
      ensures pending == old(pending) + NudgeTexts(items) && Accounted([]) && NudgeTexts(items) <= old(inbox)
      ensures nudges == old(nudges) + NudgesIn(items) && (interrupt.Nudged? ==> nudges > old(nudges))
      ensures !cancelled ==> !raised && JustLooked(trace)
      ensures old(raised) ==> raised
    {
      hide Kept, TraceKept, Logged, Ledger, ListKept, Accounted, RequestsFair, IdleAfterCancel, SawCancel, Spaced, BackedOff;
      hide NudgesSeen, Completions, NudgeTexts, NudgesIn, TextsSeen, Served, Watched, Ids;
      AccountedNow([]);
      var polled := PollInbox(left, n);
      items := polled;
      KeptMeans(left, n);
      TraceMeans(n);
      PendingMeansNudged(items);
      PollSeen(old(trace), items);
      interrupt := TakeItems(polled);
      TraceHolds(n);
      KeptHolds(left, n);
      TextsAfter(old(trace), Polled(items));
      assert said + old(pending) + NudgeTexts(items) == said + (old(pending) + NudgeTexts(items));
      AccountedNow([]);
    }

    lemma {:induction false} PollSeen(was: seq<Act>, items: seq<InboxItem>)
      ensures CancelItem in items ==> SawCancel(was + [Polled(items)])
      ensures SawCancel(was) ==> SawCancel(was + [Polled(items)])
    {
      TraceAfter(was, Polled(items));
    }

    /** Queues nudges and notes a cancel, item by item. */
    method TakeItems(items: seq<InboxItem>) returns (interrupt: Interrupt)
      modifies this`pending, this`cancelled
      ensures interrupt == Urgency(old(cancelled), items)
      ensures cancelled <==> interrupt.Cancelled?
      ensures pending == old(pending) + NudgeTexts(items)
    {
      hide NudgeTexts, NudgesIn;
      NoItems();
      interrupt := if cancelled then Cancelled else Clear;
      assert pending + [] == pending;
      for i := 0 to |items|
        invariant interrupt == Urgency(old(cancelled), items[..i])
        invariant cancelled <==> interrupt.Cancelled?
        invariant pending == old(pending) + NudgeTexts(items[..i])
      {
        NextItem(items, i);
        match items[i] {
          case NudgeItem(text) =>
            pending := pending + [text];
            if !interrupt.Cancelled? { interrupt := Nudged; }
          case CancelItem =>
            cancelled := true;
            interrupt := Cancelled;
          case ControlItem(_) =>
        }
      }
      assert items[..|items|] == items;
    }

    lemma {:induction false} PendingMeansNudged(items: seq<InboxItem>)
      ensures NudgeTexts(items) != [] <==> NudgesIn(items) > 0
    {
      if items != [] { PendingMeansNudged(items[..|items| - 1]); }
    }

    /** Adds queued nudge text to the conversation; it has no sequence of its own. */
    method FlushPending(ghost left: seq<Call>, ghost n: nat) returns (interrupt: Interrupt, ghost items: seq<InboxItem>)
      requires Kept(left, n) && Accounted([])
      modifies this`log, this`inbox, this`raised, this`nudges, this`trace, this`pending, this`cancelled
      modifies this`messages, this`origins, this`said, this`sound
      ensures Kept(left, n) && old(log) <= log && trace == old(trace) + [Polled(items)]
      ensures interrupt == Urgency(old(cancelled), items)
      ensures cancelled <==> interrupt.Cancelled?
      ensures pending == [] && messages == old(messages) + UserMessages(old(pending) + NudgeTexts(items))
      ensures origins == old(origins) + Zeros(|old(pending)| + |NudgeTexts(items)|)
      ensures said == old(said) + old(pending) + NudgeTexts(items) && Accounted([])
      ensures sound == (old(sound) && (left == [] || old(pending) + NudgeTexts(items) == []))
      ensures nudges == old(nudges) + NudgesIn(items) && (interrupt.Nudged? ==> nudges > old(nudges))
      ensures !cancelled ==> !raised
    {
      hide Kept, Accounted, Urgency, NudgesIn, NudgeTexts, UserMessages;
      interrupt, items := DrainInbox(left, n);
      SayPending(left, n);
    }

    /** Pushes the queued texts, oldest first. */
    method SayPending(ghost left: seq<Call>, ghost n: nat)
      requires Kept(left, n) && Accounted([])
      modifies this`pending, this`messages, this`origins, this`said, this`sound
      ensures Kept(left, n) && Accounted([])
      ensures pending == [] && messages == old(messages) + UserMessages(old(pending)) && said == old(said) + old(pending)
      ensures origins == old(origins) + Zeros(|old(pending)|)
      ensures sound == (old(sound) && (left == [] || old(pending) == []))
    {
      hide Kept, TraceKept, Logged, Ledger, ListKept, Accounted, Spaced, BackedOff, TextsSeen, NudgesLogged, Served, Ids;
      KeptMeans(left, n);
      LedgerNow();
      AccountedNow([]);
      IdsNone(left);
      var queued := pending;
      if queued != [] { assert !Undisturbed(world, log); }
      said := said + pending;
      pending := [];
      NothingSaid(messages, origins);
      for i := 0 to |queued|
        modifies this`messages, this`origins, this`sound
        invariant messages == old(messages) + UserMessages(queued[..i]) && origins == old(origins) + Zeros(i)
        invariant sound == (old(sound) && (left == [] || i == 0))
        invariant ListKept(world, log, messages, origins, (contextTokens, billedTo), Ids(left), sound)
      {
        ListAfterSaid(world, log, messages, origins, (contextTokens, billedTo), Ids(left), sound, queued[i]);
        SaidNext(old(messages), old(origins), queued, i);
        Push(User(queued[i]), 0);
        sound := sound && left == [];
      }
      assert queued[..|queued|] == queued;
      AccountedNow([]);
      KeptHolds(left, n);
    }

    lemma {:induction false} IdsNone(calls: seq<Call>)
      ensures Ids(calls) == [] <==> calls == []
    {}

    // --- the list and its size -----------------------------------------------------------

    /** Rebuilds the model's view of the conversation from the log. */
    method Rehydrate()
      modifies this`messages, this`origins, this`contextTokens, this`billedTo
      ensures InSync(log, world.hidden, messages, origins, (contextTokens, billedTo))
    {
      hide InSync, Items, Emits, PlanOf, Merge, SortNotes;
      var prompt: string := *;
      messages, origins, contextTokens, billedTo := [], [], 0, 0;
      Push(System(prompt), 0);
      var shown, billing := Projected();
      PushAll(shown);
      if billing.Some? { contextTokens, billedTo := billing.value.0, billing.value.1; }
      RebuiltInSync(log, world.hidden, prompt, shown, billing, messages, origins);
    }

    /** The projection of the log, behind a prompt. */
    method Projected() returns (shown: seq<(Message, nat)>, billing: Option<(nat, nat)>)
      ensures Emits(shown, billing, Items(log, world.hidden), PlanOf(log, world.hidden), 1)
    {
      hide Emits, PlanOf, Merge, SortNotes;
      var plan := PlanProjection(log, world.hidden);
      shown, billing := Project(log, plan, 1);
    }

    method PushAll(shown: seq<(Message, nat)>)
      modifies this`messages, this`origins
      ensures messages == old(messages) + Shown(shown) && origins == old(origins) + From(shown)
    {
      assert messages + [] == messages && origins + [] == origins;
      for i := 0 to |shown|
        invariant messages == old(messages) + Shown(shown[..i]) && origins == old(origins) + From(shown[..i])
      {
        Push(shown[i].0, shown[i].1);
        assert Shown(shown[..i + 1]) == Shown(shown[..i]) + [shown[i].0];
        assert From(shown[..i + 1]) == From(shown[..i]) + [shown[i].1];
      }
      assert shown[..|shown|] == shown;
    }

    method RecordUsage(usage: Option<Usage>)
      modifies this`promptTokens, this`completionTokens, this`cost, this`contextTokens, this`billedTo
      ensures (contextTokens, billedTo) == old(Repriced(usage))
      ensures promptTokens == old(promptTokens) + (if usage.Some? then usage.value.promptTokens else 0)
      ensures completionTokens == old(completionTokens) + (if usage.Some? then usage.value.completionTokens else 0)
      ensures cost == old(cost) + (if usage.Some? then usage.value.cost else 0)
    {
      if usage.Some? {
        promptTokens := promptTokens + usage.value.promptTokens;
        completionTokens := completionTokens + usage.value.completionTokens;
        cost := cost + usage.value.cost;
        contextTokens := usage.value.promptTokens;
        billedTo := |messages|;
      }
    }

    /** The last priced size plus an estimate of everything added since. */
    function ContextEstimate(): nat
      reads this`messages, this`contextTokens, this`billedTo
    { SizeOf(messages, (contextTokens, billedTo)) }

    static function SizeOf(ms: seq<Message>, price: (nat, nat)): nat {
      SatAdd(price.0, Estimate(ms[Min(price.1, |ms|)..]))
    }

    /** What the provider last counted stands for what it counted; what was added since is
        estimated. */
    static lemma {:induction false} SizeSincePriced(ms: seq<Message>, more: seq<Message>, price: nat)
      ensures SizeOf(ms + more, (price, |ms|)) == Min(price + Estimate(more), U32_MAX)
    {
      assert (ms + more)[|ms|..] == more;
    }

    // --- compaction --------------------------------------------------------------------

    /** One look at the inbox between summaries: a stop is reported, and what nudges there
        were is handed back to whoever queues them. */
    method StopRequested(carried0: seq<string>, ghost n: nat)
      returns (stop: bool, carried: seq<string>, ghost items: seq<InboxItem>)
      requires Kept([], n) && Accounted(carried0)
      modifies this`log, this`inbox, this`raised, this`nudges, this`trace
      ensures Kept([], n) && old(log) <= log && trace == old(trace) + [Polled(items)]
      ensures stop == (CancelItem in items) && carried == carried0 + NudgeTexts(items)
      ensures nudges == old(nudges) + NudgesIn(items)
      ensures stop <==> raised
      ensures !stop ==> JustLooked(trace)
      ensures Askings(trace) == Askings(old(trace)) && Deeds(trace) == Deeds(old(trace))
      ensures LastCompaction(log) == LastCompaction(old(log)) && Accounted(carried)
    {
      hide Kept, Askings, Deeds;
      var polled := PollInbox([], n);
      items := polled;
      stop, carried := ReadStop(polled, carried0);
      TextsAfter(old(trace), Polled(items));
      DeedsAfter(old(trace), Polled(items));
    }

    /** A stop among the items, and the nudge texts behind those carried so far. */
    static method ReadStop(polled: seq<InboxItem>, carried0: seq<string>) returns (stop: bool, carried: seq<string>)
      ensures stop == (CancelItem in polled) && carried == carried0 + NudgeTexts(polled)
    {
      hide NudgeTexts, NudgesIn;
      NoItems();
      stop, carried := false, carried0;
      assert carried + [] == carried;
      for i := 0 to |polled|
        invariant stop == (CancelItem in polled[..i])
        invariant carried == carried0 + NudgeTexts(polled[..i])
      {
        NextItem(polled, i);
        match polled[i] {
          case CancelItem => stop := true;
          case NudgeItem(text) => carried := carried + [text];
          case ControlItem(_) =>
        }
      }
      assert polled[..|polled|] == polled;
    }

    /** One summary call; an unusable answer is None. */
    method Summarize(job: Job, ghost n: nat) returns (summary: Option<string>)
      requires Kept([], n) && !raised && JustLooked(trace)
      modifies this`log, this`inbox, this`trace
      ensures Kept([], n) && old(log) <= log && old(trace) <= trace && TextsSeen(trace) == TextsSeen(old(trace))
      ensures Askings(trace) == Askings(old(trace)) + [Asking(job, summary)] && Deeds(trace) == Deeds(old(trace))
      ensures LastCompaction(log) == LastCompaction(old(log))
    {
      hide Kept, Askings, Deeds, TextsSeen;
      summary := *;
      Witness(Summarized(Asking(job, summary)), [], n);
      DeedsAfter(old(trace), Summarized(Asking(job, summary)));
      Others([], n);
    }

    /** Summarizes a plan span by span, watching the inbox before each.  Each job is asked
        for in turn until a stop; what comes of it is the jobs whose answer was of use. */
    method RunCompaction(jobs: seq<Job>, ghost n: nat)
      returns (result: Option<Compaction>, carried: seq<string>, ghost asked: seq<Asking>, ghost kept: seq<nat>, ghost texts: seq<string>)
      requires Kept([], n) && Accounted([])
      modifies this`log, this`inbox, this`raised, this`nudges, this`trace
      ensures Kept([], n) && old(log) <= log && old(nudges) <= nudges && old(trace) <= trace
      ensures LastCompaction(log) == LastCompaction(old(log)) && Accounted(carried)
      ensures Askings(trace) == Askings(old(trace)) + asked && AskedInTurn(jobs, asked) && (|asked| < |jobs| ==> raised)
      ensures Deeds(trace) == Deeds(old(trace))
      ensures Indices(kept, |jobs|) && AreAnswers(asked, kept, texts)
      ensures result.Some? <==> kept != []
      ensures result.Some? ==> Records(result.value.spans, jobs, kept)
      ensures result.Some? ==> result.value.replaced == Splice.MessagesOf(jobs, kept)
      ensures result.Some? ==> Tells(result.value.summary, jobs, kept, texts)
    {
      hide Kept, NudgeTexts, NudgesIn, Indices, Records, Splice.MessagesOf, SummaryBlock, Tells, LastCompaction, Askings, JustLooked, Deeds;
      hide AskedInTurn, AreAnswers;
      var summary, spans: seq<SeqSpan>, replaced: nat := "", [], 0;
      carried, asked, kept, texts := [], [], [], [];
      NothingKept(jobs);
      NothingAsked(jobs);
      assert Askings(trace) + [] == Askings(trace);
      for i := 0 to |jobs|
        invariant Kept([], n) && old(log) <= log && old(nudges) <= nudges && old(trace) <= trace
        invariant LastCompaction(log) == LastCompaction(old(log)) && Accounted(carried)
        invariant |asked| == i && Askings(trace) == Askings(old(trace)) + asked && AskedInTurn(jobs, asked)
        invariant AreAnswers(asked, kept, texts) && Deeds(trace) == Deeds(old(trace))
        invariant Chosen(jobs, i, kept, spans, replaced) && Tells(summary, jobs, kept, texts)
      {
        var stop;
        ghost var seen;
        stop, carried, seen := StopRequested(carried, n);
        if stop { break; }
        var text := Summarize(jobs[i], n);
        assert (Askings(old(trace)) + asked) + [Asking(jobs[i], text)] == Askings(old(trace)) + (asked + [Asking(jobs[i], text)]);
        ChosenNext(jobs, i, kept, spans, replaced);
        AnswerNext(jobs, asked, kept, texts, text);
        asked := asked + [Asking(jobs[i], text)];
        if text.None? { continue; }
        TellsNext(summary, jobs, kept, texts, i, text.value);
        texts := texts + [text.value];
        summary := summary + (if spans == [] then "" else "\n\n") + SummaryBlock(jobs[i], text.value);
        spans := spans + [SeqSpan(jobs[i].first, jobs[i].last)];
        replaced := replaced + jobs[i].messages;
        kept := kept + [i];
      }
      result := if spans == [] then None else Some(Compaction(spans, summary, replaced));
    }

    /** When a compaction is attempted at all. */
    static predicate Due(policy: Policy, pending: seq<string>, context: nat, until: nat) {
      policy.enabled && pending == [] && context >= until && policy.ShouldCompact(context)
    }

    /** What became of a compaction: the summaries asked for, those of use, and the record
        made of them. */
    ghost predicate Outcome(jobs: seq<Job>, recorded: bool, c: Compaction, asked: seq<Asking>)
      reads this`raised, this`messages, this`origins
    {
      && AskedInTurn(jobs, asked) && (|asked| < |jobs| ==> raised)
      && (recorded <==> exists i :: 0 <= i < |asked| && asked[i].answer.Some?)
      && (recorded ==> MadeOf(c, jobs, asked) && ReadsSummary(messages, origins, c))
    }

    /** How large the context must get before the next attempt. */
    static function NextAttempt(size: nat, planned: bool, shed: bool): nat {
      if shed then 0 else if planned then SatAdd(size, size / 4) else SatAdd(size, size / 10)
    }

    /** Compacts when the context has outgrown its threshold and is not backing off.
        Once a compaction is recorded the list is the projection of the log, nudges
        logged meanwhile included, and reads the summaries asked for; otherwise it stays
        as it was. */
    method MaybeCompact(ghost n: nat)
      returns (ghost shed: bool, ghost recorded: bool, ghost c: Compaction, ghost asked: seq<Asking>)
      requires Kept([], n) && n == iterations && Accounted([])
      modifies this`log, this`inbox, this`raised, this`nudges, this`trace, this`pending, this`messages, this`origins
      modifies this`contextTokens, this`billedTo, this`backoffUntil, this`attempts, this`sound
      ensures Kept([], n) && old(log) <= log && old(nudges) <= nudges && old(trace) <= trace && Accounted([])
      ensures Askings(trace) == Askings(old(trace)) + asked && Deeds(trace) == Deeds(old(trace))
      ensures var due := Due(settings(n), old(pending), old(ContextEstimate()), old(backoffUntil));
              var plan := PlanJobs(old(messages), old(origins), old(ContextEstimate()), settings(n), world.hidden);
              && (!due ==> log == old(log) && trace == old(trace) && attempts == old(attempts) && backoffUntil == old(backoffUntil))
              && (due ==> attempts == old(attempts) + [Attempt(old(ContextEstimate()), shed)]
                          && backoffUntil == NextAttempt(old(ContextEstimate()), plan.Some?, shed))
              && if due && plan.Some? then Outcome(plan.value, recorded, c, asked) else !recorded && asked == []
      ensures shed <==> recorded && ContextEstimate() < SatSub(old(ContextEstimate()), old(ContextEstimate()) / 10)
      ensures !recorded ==> messages == old(messages) && origins == old(origins) && sound == old(sound)
                            && (contextTokens, billedTo) == old((contextTokens, billedTo))
      ensures recorded ==> InSync(log, world.hidden, messages, origins, (contextTokens, billedTo)) && sound == Acceptable(messages)
      ensures forall q :: NudgeSince(log, LastAt(old(log)), q) ==>
                && (q.at in origins <==> recorded && q.at > Floor(log) && !world.hidden.Contains(q.at))
                && (q.at in origins ==> Reads(messages, origins, q.at, q.event.text))
    {
      hide Kept, Accounted, PlanJobs, ContextEstimate, InSync, Acceptable, NudgeSince, Floor, LastAt, Reads, Outcome, Askings, Deeds, Planned;
      var policy := settings(iterations);
      shed, recorded, c, asked := false, false, Compaction([], "", 0), [];
      assert Askings(trace) + [] == Askings(trace);
      NoneListed(n);
      if !policy.enabled || pending != [] { return; }
      var context := ContextEstimate();
      if context < backoffUntil || !policy.ShouldCompact(context) { return; }
      var plan := PlanCompaction(messages, origins, context, policy, world.hidden);
      if plan.None? {
        BackOff(context, SatAdd(context, context / 10), false, n);
        return;
      }
      var done;
      done, c, asked := Compact(plan.value, context, policy, n);
      if !done {
        BackOff(context, SatAdd(context, context / 4), false, n);
        return;
      }
      recorded := true;
      var after := ContextEstimate();
      if after >= SatSub(context, context / 10) {
        BackOff(context, SatAdd(context, context / 4), false, n);
      } else {
        shed := true;
        BackOff(context, 0, true, n);
      }
    }

    /** No message stands at a sequence above everything logged. */
    lemma {:induction false} NoneListed(n: nat)
      requires Kept([], n)
      ensures forall q :: NudgeSince(log, LastAt(log), q) ==> q.at !in origins
    {
      hide TraceKept, Logged, Ledger, Spaced, BackedOff, ListKept, LastAt, Served;
      assert Ids([]) == [];
      NoneListedYet(world, log, messages, origins, (contextTokens, billedTo), sound);
    }

    /** Summarizes planned jobs and records what came of it. */
    method Compact(jobs: seq<Job>, ghost context: nat, ghost policy: Policy, ghost n: nat)
      returns (recorded: bool, ghost c: Compaction, ghost asked: seq<Asking>)
      requires Kept([], n) && Accounted([]) && PlanJobs(messages, origins, context, policy, world.hidden) == Some(jobs)
      modifies this`log, this`inbox, this`raised, this`nudges, this`trace, this`pending, this`messages, this`origins
      modifies this`contextTokens, this`billedTo, this`sound
      ensures Kept([], n) && old(log) <= log && old(nudges) <= nudges && old(trace) <= trace && Accounted([])
      ensures Askings(trace) == Askings(old(trace)) + asked && Deeds(trace) == Deeds(old(trace))
      ensures Outcome(jobs, recorded, c, asked)
      ensures !recorded ==> messages == old(messages) && origins == old(origins) && sound == old(sound)
                            && (contextTokens, billedTo) == old((contextTokens, billedTo))
      ensures recorded ==> InSync(log, world.hidden, messages, origins, (contextTokens, billedTo)) && sound == Acceptable(messages)
      ensures forall q :: NudgeSince(log, LastAt(old(log)), q) ==>
                && (q.at in origins <==> recorded && q.at > Floor(log) && !world.hidden.Contains(q.at))
                && (q.at in origins ==> Reads(messages, origins, q.at, q.event.text))
    {
      hide Kept, Accounted, TraceKept, Logged, Ledger, ListKept, PlanJobs, Records, Indices, InSync, Acceptable, Floor, Served;
      hide LastCompaction, JobsBelow, LastAt, NothingMissing, TornBy, Picked, Reads, Askings, Deeds, AskedInTurn, AreAnswers, ReadsSummary;
      hide MadeOf, Tells, Splice.MessagesOf;
      KeptMeans([], n);
      PlanIsBelow(world, log, messages, origins, (contextTokens, billedTo), sound, replies, context, policy);
      NoneListedYet(world, log, messages, origins, (contextTokens, billedTo), sound);
      c := Compaction([], "", 0);
      var result, carried;
      ghost var kept, texts;
      result, carried, asked, kept, texts := RunCompaction(jobs, n);
      AnswersKept(asked, kept, texts);
      Carry(carried, n);
      if result.None? { return false, c, asked; }
      c := result.value;
      MadeOfAnswers(c, jobs, asked, kept, texts);
      ghost var mid := log;
      RecordCompaction(result.value, context, policy, kept, n);
      FoundMeanwhile(old(log), mid, jobs, kept, n);
      recorded := true;
    }

    /** Of the nudges logged since a plan, the rebuilt list reads those above the floor
        and not hidden. */
    lemma {:induction false} FoundMeanwhile(was: seq<Record>, mid: seq<Record>, jobs: seq<Job>, kept: seq<nat>, n: nat)
      requires Kept([], n) && Logged(world, was, [], replies) && LastCompaction(mid) == LastCompaction(was)
      requires mid <= log && |log| == |mid| + 1 && log[|mid|].event.ContextCompacted?
      requires InSync(log, world.hidden, messages, origins, (contextTokens, billedTo))
      requires Indices(kept, |jobs|) && Records(log[|mid|].event.compaction.spans, jobs, kept) && JobsBelow(jobs, LastAt(was))
      ensures forall q :: NudgeSince(log, LastAt(was), q) ==>
                && (q.at in origins <==> q.at > Floor(log) && !world.hidden.Contains(q.at))
                && (q.at in origins ==> Reads(messages, origins, q.at, q.event.text))
    {
      hide Kept, TraceKept, Logged, Ledger, ListKept, Records, Indices, InSync, Floor, LastCompaction, JobsBelow, LastAt;
      hide Reads, NudgeSince;
      KeptMeans([], n);
      assert log == mid + [log[|mid|]];
      NudgesListedIff(world, was, mid, log[|mid|], jobs, kept, messages, origins, (contextTokens, billedTo), replies);
    }

    /** Queues the nudges a compaction came across. */
    method Carry(carried: seq<string>, ghost n: nat)
      requires Kept([], n) && Accounted(carried)
      modifies this`pending
      ensures Kept([], n) && pending == old(pending) + carried && Accounted([])
    {
      hide Kept, TextsSeen;
      pending := pending + carried;
    }

    /** Remembers an attempt and how large the context must get before the next. */
    method BackOff(size: nat, until: nat, shed: bool, ghost n: nat)
      requires Kept([], n) && size >= backoffUntil && (shed || until >= SatAdd(size, size / 10))
      modifies this`backoffUntil, this`attempts
      ensures Kept([], n) && backoffUntil == until && attempts == old(attempts) + [Attempt(size, shed)]
    {
      hide TraceKept, Logged, Ledger, ListKept;
      backoffUntil := until;
      attempts := attempts + [Attempt(size, shed)];
    }

    /** Logs a compaction and rebuilds the list through it.  What it covers of the user's
        words could be read off the list and the log before: a word is covered exactly
        when two neighbours of a recorded job's span stood on either side of it, and
        nothing is where the list missed nothing. */
    method RecordCompaction(c: Compaction, ghost context: nat, ghost policy: Policy, ghost kept: seq<nat>, ghost n: nat)
      requires Kept([], n) && PlanJobs(messages, origins, context, policy, world.hidden).Some?
      requires var jobs := PlanJobs(messages, origins, context, policy, world.hidden).value;
               kept != [] && Indices(kept, |jobs|) && Records(c.spans, jobs, kept)
      modifies this`log, this`messages, this`origins, this`contextTokens, this`billedTo, this`sound
      ensures Kept([], n) && old(log) <= log && |log| == |old(log)| + 1
      ensures log[|old(log)|].at > LastAt(old(log)) && log[|old(log)|].event == ContextCompacted(c)
      ensures InSync(log, world.hidden, messages, origins, (contextTokens, billedTo)) && sound == Acceptable(messages)
      ensures ReadsSummary(messages, origins, c)
      ensures |old(origins)| == |old(messages)|
      ensures forall q :: q in old(log) && q.event.UserKind() ==>
                (SomeHas(c.spans, q.at) <==>
                 TornBy(Picked(old(messages), old(origins), context, policy, world.hidden), old(origins), kept, q.at))
      ensures NothingMissing(old(log), world.hidden, old(messages), old(origins)) ==>
                forall q :: q in old(log) && q.event.UserKind() ==> !SomeHas(c.spans, q.at)
    {
      hide Kept, TraceKept, Logged, Ledger, ListKept, Spaced, BackedOff, NudgesLogged, TextsSeen, Chronological, InSync;
      hide PlanJobs, Records, Indices, Acceptable, NothingMissing, TornBy, Picked, Undisturbed, LogStanding, SomeHas, SpansBehind;
      hide Served, ReadsSummary;
      KeptMeans([], n);
      LoggedMeans([]);
      LedgerNow();
      RecordedTears(world, log, messages, origins, (contextTokens, billedTo), sound, replies, context, policy, kept, c);
      var at := Append(ContextCompacted(c));
      ghost var rec := Record(at, ContextCompacted(c));
      LoggedAfterCompaction(world, old(log), messages, origins, (contextTokens, billedTo), sound, replies, context, policy, kept, rec);
      NudgesAfter(old(log), world.start, rec);
      Grown(old(log), rec);
      ServedAfterQuiet(world, old(log), trace, Now([]), rec);
      Rehydrate();
      SummaryRead(old(log), rec, PlanJobs(old(messages), old(origins), context, policy, world.hidden).value, kept);
      LoggedMeans([]);
      ListRebuilt(world, log, messages, origins, (contextTokens, billedTo));
      sound := Acceptable(messages);
      LedgerNow();
      KeptHolds([], n);
    }

    /** A rebuilt list reads the summary just recorded. */
    lemma {:induction false} SummaryRead(was: seq<Record>, rec: Record, jobs: seq<Job>, kept: seq<nat>)
      requires Chronological(was) && rec.at > LastAt(was) && rec.event.ContextCompacted?
      requires kept != [] && Indices(kept, |jobs|) && Records(rec.event.compaction.spans, jobs, kept)
      requires log == was + [rec] && InSync(log, world.hidden, messages, origins, (contextTokens, billedTo))
      ensures ReadsSummary(messages, origins, rec.event.compaction)
    {
      Splice.FloorAfterCompaction(was, rec);
      hide ListedMessages, ListedOrigins, LogPrice, Floor, ReadsSummary;
      SummariesAreRead(log, world.hidden, messages[0].prompt, rec);
    }

    // --- one completion ------------------------------------------------------------------

    /** The request goes out as the list stands, and this stream comes back. */
    ghost method Open(stream: Option<seq<StreamItem>>, n: nat)
      requires Kept([], n) && !raised && JustLooked(trace) && Accounted([]) && !answering
      modifies this`trace, this`answering
      ensures answering && Kept([], n + 1) && Accounted([]) && LastStream(trace) == stream
      ensures trace == old(trace) + [Opened(messages, origins, (contextTokens, billedTo), log, sound, stream)]
    {
      hide Kept, TraceKept, Logged, Ledger, ListKept, Accounted, RequestsFair, IdleAfterCancel, SawCancel, Spaced, BackedOff;
      hide NudgesSeen, Completions, Fair, TextsSeen, NudgesLogged, Watched, JustLooked, Served, LastStream;
      var act := Opened(messages, origins, (contextTokens, billedTo), log, sound, stream);
      KeptMeans([], n);
      TraceMeans(n);
      AccountedNow([]);
      LedgerNow();
      OpenedIsFair(stream);
      ActAdded(trace, act);
      LastStreamAfter(trace, act);
      ServedAfterAct(world, log, trace, Now([]), act);
      trace := trace + [act];
      answering := true;
      TraceHolds(n + 1);
      LedgerNow();
      KeptHolds([], n + 1);
      AccountedNow([]);
    }

    lemma {:induction false} OpenedIsFair(stream: Option<seq<StreamItem>>)
      requires ListKept(world, log, messages, origins, (contextTokens, billedTo), Ids([]), sound)
      ensures Fair(Opened(messages, origins, (contextTokens, billedTo), log, sound, stream), world)
    {
      assert Ids([]) == [];
      hide ListKept, Fair;
      OpenedFair(world, log, messages, origins, (contextTokens, billedTo), sound, stream);
    }

    /** Streams a reply, polling the inbox at least every sixteen items; a stop keeps
        what arrived.  Without a stop the whole of the stream is heard, up to its end, and
        it is an error only if it has none. */
    method StreamCompletion(ghost n: nat) returns (r: Result<Reply, string>, ghost heard: seq<StreamItem>)
      requires Kept([], n) && !raised && JustLooked(trace) && Accounted([]) && !answering
      modifies this`log, this`inbox, this`raised, this`nudges, this`trace, this`pending, this`cancelled, this`answering
      ensures answering && Kept([], n + 1) && old(log) <= log && old(nudges) <= nudges && Accounted([])
      ensures r.Ok? ==> LastStream(trace).Some? && heard <= LastStream(trace).value && (RunsToEnd(heard) <==> !cancelled)
      ensures r.Ok? ==> r.value.text == Spoken(heard) && r.value.calls == CallsAsked(heard)
      ensures r.Ok? ==> r.value.usage == if RunsToEnd(heard) then heard[|heard| - 1].usage else None
      ensures r.Ok? ==> HeardFrom(LastStream(trace), AssistantMessage(r.value.text, r.value.calls, r.value.usage), SawCancel(trace))
      ensures r.Err? ==> Fails(LastStream(trace)) && !cancelled
      ensures Deeds(trace) == Deeds(old(trace)) && Askings(trace) == Askings(old(trace)) && old(trace) <= trace
      ensures |trace| > |old(trace)| && |heard| < POLL_EVERY * (|trace| - |old(trace)|)
    {
      hide Kept, Accounted, Urgency, NudgesIn, NudgeTexts, Spoken, CallsAsked, LastStream, Deeds, Askings, JustLooked, SawCancel, HeardFrom;
      var stream: Option<seq<StreamItem>> := *;
      NotCancelled([], n);
      Open(stream, n);
      DeedsAfter(old(trace), trace[|old(trace)|]);
      heard := [];
      if stream.None? { return Err("the stream could not be opened"), []; }
      var items := stream.value;
      var reply, sincePoll := Reply("", [], None), 0;
      ghost var polls: nat := 0;
      NothingHeard();
      for i := 0 to |items| + 1
        invariant Kept([], n + 1) && old(log) <= log && old(nudges) <= nudges && Accounted([]) && !cancelled && old(trace) <= trace
        invariant i == POLL_EVERY * polls + sincePoll && sincePoll < POLL_EVERY && |trace| == |old(trace)| + 1 + polls
        invariant LastStream(trace) == stream && Deeds(trace) == Deeds(old(trace)) && Askings(trace) == Askings(old(trace))
        invariant i <= |items| && heard == items[..i] && forall k | 0 <= k < i :: !items[k].Finished?
        invariant reply == Reply(Spoken(heard), CallsAsked(heard), None) && !RunsToEnd(heard) && answering
      {
        sincePoll := sincePoll + 1;
        if sincePoll >= POLL_EVERY {
          sincePoll := 0;
          polls := polls + 1;
          var interrupt := Look(n + 1);
          if interrupt.Cancelled? {
            CutShort(items, heard, n + 1);
            return Ok(reply), heard;
          }
        }
        if i == |items| { break; }
        HearNext(items, i);
        heard := items[..i + 1];
        match items[i] {
          case Delta(text) => reply := reply.(text := reply.text + text);
          case Reasoning(_) =>
          case Calls(calls) => reply := reply.(calls := calls);
          case Finished(usage) =>
            HeardOut(items, heard, reply.(usage := usage), SawCancel(trace));
            return Ok(reply.(usage := usage)), heard;
        }
      }
      var interrupt := Look(n + 1);
      if interrupt.Cancelled? {
        CutShort(items, heard, n + 1);
        return Ok(reply), heard;
      }
      r := Err("the stream failed");
    }

    /** What a stop leaves of a stream is a reply heard from it. */
    lemma {:induction false} CutShort(items: seq<StreamItem>, heard: seq<StreamItem>, n: nat)
      requires Kept([], n) && cancelled && heard <= items && !RunsToEnd(heard) && forall k | 0 <= k < |heard| :: !heard[k].Finished?
      ensures HeardFrom(Some(items), AssistantMessage(Spoken(heard), CallsAsked(heard), None), SawCancel(trace))
    {
      hide Logged, Ledger, Served, ListKept, Spaced, BackedOff, IdleAfterCancel, Watched, RequestsFair, SawCancel, Spoken, CallsAsked;
      assert Transcribes(AssistantMessage(Spoken(heard), CallsAsked(heard), None), items, heard);
    }

    lemma {:induction false} HeardOut(items: seq<StreamItem>, heard: seq<StreamItem>, reply: Reply, stopped: bool)
      requires heard <= items && RunsToEnd(heard) && forall k | 0 <= k < |heard| - 1 :: !heard[k].Finished?
      requires reply == Reply(Spoken(heard), CallsAsked(heard), heard[|heard| - 1].usage)
      ensures HeardFrom(Some(items), AssistantMessage(reply.text, reply.calls, reply.usage), stopped)
    {
      hide Spoken, CallsAsked;
      assert Transcribes(AssistantMessage(reply.text, reply.calls, reply.usage), items, heard);
    }

    /** One look at the inbox while a stream is open. */
    method Look(ghost n: nat) returns (interrupt: Interrupt)
      requires Kept([], n) && Accounted([])
      modifies this`log, this`inbox, this`raised, this`nudges, this`trace, this`pending, this`cancelled
      ensures Kept([], n) && old(log) <= log && old(nudges) <= nudges && Accounted([]) && (cancelled <==> interrupt.Cancelled?)
      ensures |trace| == |old(trace)| + 1 && old(trace) <= trace && LastStream(trace) == LastStream(old(trace))
      ensures Deeds(trace) == Deeds(old(trace)) && Askings(trace) == Askings(old(trace))
    {
      hide Kept, Accounted, Urgency, NudgesIn, NudgeTexts, LastStream, Deeds, Askings, JustLooked;
      ghost var items;
      interrupt, items := DrainInbox([], n);
      LastStreamAfter(old(trace), Polled(items));
      DeedsAfter(old(trace), Polled(items));
    }

    lemma {:induction false} NotCancelled(left: seq<Call>, n: nat)
      requires Kept(left, n) && !raised
      ensures !cancelled
    {
      hide Logged, Ledger, Served, ListKept, Spaced, BackedOff;
    }

    /** Logs the reply, prices the list as it went out, and pushes the reply. */
    method LogReply(reply: Reply)
      requires Kept([], iterations) && skipped == [] && answering
      requires HeardFrom(LastStream(trace), AssistantMessage(reply.text, reply.calls, reply.usage), SawCancel(trace))
      modifies this`log, this`messages, this`origins, this`contextTokens, this`billedTo
      modifies this`promptTokens, this`completionTokens, this`cost, this`replies, this`batch, this`answering
      ensures !answering && Kept(reply.calls, iterations) && old(log) <= log && batch == Some(Batch(reply.calls, []))
      ensures replies == old(replies) + (if reply.calls != [] then 1 else 0)
      ensures messages == old(messages) + [Assistant(reply.text, reply.calls)]
      ensures (contextTokens, billedTo) == old(Repriced(reply.usage)) && Totals() == Added(old(Totals()), reply.usage)
      ensures |log| == |old(log)| + 1 && log[|old(log)|].at > LastAt(old(log)) && origins == old(origins) + [log[|old(log)|].at]
      ensures log[|old(log)|].event == AssistantMessage(reply.text, reply.calls, reply.usage)
    {
      hide Kept, TraceKept, Logged, Ledger, ListKept, Spaced, BackedOff, NudgesLogged, TextsSeen, Chronological, Ids, LastAt, Served, HeardFrom, LastStream, SawCancel;
      KeptMeans([], iterations);
      LoggedMeans([]);
      LedgerNow();
      var at := Append(AssistantMessage(reply.text, reply.calls, reply.usage));
      ReplyLogged(old(log), log[|old(log)|], reply);
      PushReply(reply, at);
      LedgerNow();
      KeptHolds(reply.calls, iterations);
    }

    /** Prices the list as it stands, then pushes the reply behind it. */
    method PushReply(reply: Reply, at: nat)
      modifies this`messages, this`origins, this`contextTokens, this`billedTo
      modifies this`promptTokens, this`completionTokens, this`cost, this`replies, this`batch, this`answering
      ensures batch == Some(Batch(reply.calls, [])) && !answering
      ensures (contextTokens, billedTo) == old(Repriced(reply.usage)) && Totals() == Added(old(Totals()), reply.usage)
      ensures messages == old(messages) + [Assistant(reply.text, reply.calls)] && origins == old(origins) + [at]
      ensures replies == old(replies) + (if reply.calls != [] then 1 else 0)
    {
      RecordUsage(reply.usage);
      Push(Assistant(reply.text, reply.calls), at);
      if reply.calls != [] { replies := replies + 1; }
      batch, answering := Some(Batch(reply.calls, [])), false;
    }

    /** What the turn's completions came to so far. */
    function Totals(): Usage
      reads this`promptTokens, this`completionTokens, this`cost
    { Usage(promptTokens, completionTokens, cost) }

    static function Added(sum: Usage, usage: Option<Usage>): Usage {
      if usage.None? then sum
      else Usage(sum.promptTokens + usage.value.promptTokens, sum.completionTokens + usage.value.completionTokens,
                 sum.cost + usage.value.cost)
    }

    /** The price once a reply's usage is known: of the list as it stands. */
    function Repriced(usage: Option<Usage>): (nat, nat)
      reads this`messages, this`contextTokens, this`billedTo
    {
      if usage.Some? then (usage.value.promptTokens, |messages| as nat) else (contextTokens, billedTo)
    }

    /** What a reply just logged does to what the turn keeps. */
    lemma {:induction false} ReplyLogged(was: seq<Record>, rec: Record, reply: Reply)
      requires Logged(world, was, Ids([]), replies) && Served(world, was, trace, Now([])) && skipped == [] && answering
      requires ListKept(world, was, messages, origins, (contextTokens, billedTo), Ids([]), sound)
      requires rec.at > LastAt(was) && rec.event == AssistantMessage(reply.text, reply.calls, reply.usage)
      requires HeardFrom(LastStream(trace), rec.event, SawCancel(trace))
      ensures was <= was + [rec] && NudgesLogged((was + [rec])[world.start..]) == NudgesLogged(was[world.start..])
      ensures Logged(world, was + [rec], Ids(reply.calls), replies + (if reply.calls != [] then 1 else 0))
      ensures Served(world, was + [rec], trace, Standing(Some(Batch(reply.calls, [])), reply.calls, [], false))
      ensures ListKept(world, was + [rec], messages + [Assistant(reply.text, reply.calls)], origins + [rec.at],
                       Repriced(reply.usage), Ids(reply.calls), sound)
    {
      assert Ids([]) == [];
      hide ListKept, NudgesLogged, Ids, LastAt, Chronological, Settled, CallingReplies, SpansBehind, NothingHiddenSince, Served;
      hide HeardFrom, LastStream, SawCancel;
      ReplySettles(rec.event);
      LoggedAfter(world, was, [], replies, rec);
      ServedAfterReply(world, was, trace, Now([]), rec);
      ListAfterReply(world, was, messages, origins, (contextTokens, billedTo), sound, rec);
      NudgesAfter(was, world.start, rec);
    }

    lemma {:induction false} ReplySettles(e: Event)
      requires e.AssistantMessage?
      ensures Settle(Some([]), e) == Some(Ids(e.calls)) && (Calling(e) <==> e.calls != []) && !e.Nudge?
    {}

    /** Runs one tool call and records its result. */
    method Dispatch(call: Call, ghost rest: seq<Call>) returns (ok: bool, ghost output: string)
      requires Kept([call] + rest, iterations) && !raised && skipped == [] && JustLooked(trace) && Accounted([])
      modifies this`log, this`inbox, this`trace, this`messages, this`origins, this`toolsUsed, this`batch, this`skipped
      ensures Kept(rest, iterations) && old(log) <= log && Accounted([]) && skipped == []
      ensures |log| > |old(log)| && log[|old(log)|].event == ToolInvocation(call)
      ensures trace == old(trace) + [Invoked(Deed(call, ok, output))] && messages == old(messages) + [Deed(call, ok, output).Result()]
      ensures old(batch).Some? && batch == Some(old(batch).value.(oks := old(batch).value.oks + [ok]))
      ensures toolsUsed == if call.name in old(toolsUsed) then old(toolsUsed) else old(toolsUsed) + [call.name]
    {
      hide Kept, Accounted, TextsSeen, JustLooked;
      AccountedNow([]);
      LogInvocation(call, [call] + rest);
      if call.name !in toolsUsed { toolsUsed := toolsUsed + [call.name]; }
      ok := *;
      var answer: string := *;
      output := answer;
      Others([call] + rest, iterations);
      LogResult(Deed(call, ok, answer), true, rest, iterations);
      AccountedNow([]);
    }

    method LogInvocation(call: Call, ghost left: seq<Call>)
      requires Kept(left, iterations)
      modifies this`log
      ensures Kept(left, iterations) && old(log) <= log && |log| == |old(log)| + 1
      ensures log[|old(log)|].event == ToolInvocation(call)
    {
      hide Kept, TraceKept, Logged, Ledger, ListKept, Spaced, BackedOff, NudgesLogged, TextsSeen, Chronological, Served, Ids;
      KeptMeans(left, iterations);
      LoggedMeans(left);
      LedgerNow();
      var at := Append(ToolInvocation(call));
      ghost var rec := Record(at, ToolInvocation(call));
      LoggedAfter(world, old(log), Ids(left), replies, rec);
      ServedAfterQuiet(world, old(log), trace, Now(left), rec);
      ListAfterQuiet(world, old(log), messages, origins, (contextTokens, billedTo), Ids(left), sound, rec);
      NudgesAfter(old(log), world.start, rec);
      Grown(old(log), rec);
      LedgerNow();
      KeptHolds(left, iterations);
    }

    /** Gives each call from `from` on the result that stands for not having run it. */
    method CancelRemaining(calls: seq<Call>, from: nat)
      requires from <= |calls| && Kept(calls[from..], iterations) && Accounted([])
      modifies this`log, this`messages, this`origins, this`trace, this`batch, this`skipped
      ensures Kept([], iterations) && old(log) <= log && Accounted([])
      ensures messages == old(messages) + NotRun(calls[from..]) && skipped == old(skipped) + calls[from..]
      ensures trace == old(trace)
      ensures old(batch).Some? ==> batch.Some? && batch.value.calls == old(batch).value.calls
    {
      hide Kept, Accounted, TextsSeen;
      AccountedNow([]);
      assert messages + NotRun(calls[from..from]) == messages && skipped + calls[from..from] == skipped;
      for i := from to |calls|
        invariant Kept(calls[i..], iterations) && old(log) <= log && trace == old(trace)
        invariant messages == old(messages) + NotRun(calls[from..i]) && skipped == old(skipped) + calls[from..i]
        invariant old(batch).Some? ==> batch.Some? && batch.value.calls == old(batch).value.calls
      {
        assert calls[i..] == [calls[i]] + calls[i + 1..];
        LogResult(Deed(calls[i], false, NOT_RUN), false, calls[i + 1..], iterations);
        assert calls[from..i + 1] == calls[from..i] + [calls[i]];
        assert NotRun(calls[from..i + 1]) == NotRun(calls[from..i]) + [Tool(calls[i].id, NOT_RUN, false)];
      }
      assert calls[|calls|..] == [];
      AccountedNow([]);
    }

    // --- the loop -----------------------------------------------------------------------

    /** Each finished iteration is paid for by a calling reply, a nudge or a reminder. */
    ghost predicate Charged()
      reads this`iterations, this`replies, this`nudges, this`todoNudges
    { iterations <= replies + nudges + todoNudges }

    /** The first calls of a batch have run: `done` was run before it, and `list` stood. */
    ghost predicate Running(calls: seq<Call>, ran: seq<Deed>, done: seq<Deed>, list: seq<Message>)
      reads this`trace, this`skipped, this`batch, this`messages
    { skipped == [] && Underway(Deeds(trace), batch, messages, calls, ran, done, list) }

    /** A look at the inbox before the next call. */
    method LookBetween(calls: seq<Call>, ghost ran: seq<Deed>, ghost done: seq<Deed>, ghost list: seq<Message>)
      returns (interrupt: Interrupt)
      requires Running(calls, ran, done, list) && Kept(calls[|ran|..], iterations) && Charged() && Accounted([])
      modifies this`log, this`inbox, this`raised, this`nudges, this`trace, this`pending, this`cancelled
      ensures Running(calls, ran, done, list) && Kept(calls[|ran|..], iterations) && Charged() && Accounted([])
      ensures old(log) <= log && old(trace) <= trace
      ensures cancelled <==> interrupt.Cancelled?
      ensures !cancelled ==> !raised && JustLooked(trace)
    {
      hide Kept, Accounted, Urgency, NudgeTexts, NudgesIn, Deeds, JustLooked, CallsOf, OksOf, ResultsOf;
      ghost var items;
      interrupt, items := DrainInbox(calls[|ran|..], iterations);
      DeedsAfter(old(trace), Polled(items));
    }

    /** Runs the next call of a batch. */
    method RunNextCall(calls: seq<Call>, i: nat, ghost ran: seq<Deed>, ghost done: seq<Deed>, ghost list: seq<Message>)
      returns (ok: bool, ghost deed: Deed)
      requires i == |ran| < |calls| && Running(calls, ran, done, list) && Kept(calls[i..], iterations) && Accounted([])
      requires CallsOf(ran) == calls[..i] && !raised && JustLooked(trace)
      modifies this`log, this`inbox, this`trace, this`messages, this`origins, this`toolsUsed, this`batch, this`skipped
      ensures Running(calls, ran + [deed], done, list) && Kept(calls[i + 1..], iterations) && Accounted([])
      ensures old(log) <= log && old(trace) <= trace && deed.call == calls[i] && deed.ok == ok
      ensures CallsOf(ran + [deed]) == calls[..i + 1]
      ensures HandsBack(calls, OksOf(ran + [deed]), endingTools)
         <==> HandsBack(calls, OksOf(ran), endingTools) || (ok && calls[i].name in endingTools)
    {
      hide Kept, Accounted, Deeds, JustLooked, CallsOf, OksOf, ResultsOf, HandsBack;
      hide Underway;
      NextOfBatch(calls, i);
      ghost var output;
      ok, output := Dispatch(calls[i], calls[i + 1..]);
      deed := Deed(calls[i], ok, output);
      DeedsAfter(old(trace), Invoked(deed));
      RunNext(calls, ran, deed, list, endingTools);
      UnderwayNext(Deeds(old(trace)), old(batch), old(messages), calls, ran, done, list, deed);
    }

    lemma {:induction false} NextOfBatch(calls: seq<Call>, i: nat)
      requires i < |calls|
      ensures calls[i..] == [calls[i]] + calls[i + 1..]
    {}

    /** Answers the calls a stop left out of a batch. */
    method StopBatch(calls: seq<Call>, i: nat, ghost ran: seq<Deed>, ghost done: seq<Deed>, ghost list: seq<Message>)
      requires i == |ran| < |calls| && Running(calls, ran, done, list) && Kept(calls[i..], iterations) && Accounted([])
      modifies this`log, this`messages, this`origins, this`trace, this`batch, this`skipped
      ensures Kept([], iterations) && Accounted([]) && old(log) <= log && trace == old(trace)
      ensures Deeds(trace) == done + ran && skipped == calls[|ran|..] && batch.Some? && batch.value.calls == calls
      ensures messages == list + ResultsOf(ran) + NotRun(skipped)
    {
      hide Kept, Accounted, Deeds, CallsOf, OksOf, ResultsOf, NotRun;
      CancelRemaining(calls, i);
      assert [] + calls[i..] == calls[i..];
    }

    /** Runs a batch, looking for a stop before every call.  The calls run are the first of
        it, each answered by what came of it; only a stop leaves the rest, answered as not
        run; and once all have run the turn ends if one of them hands control back. */
    method RunTools(calls: seq<Call>) returns (ending: Option<Ending>, ghost ran: seq<Deed>, ghost texts: seq<string>)
      requires Kept(calls, iterations) && Charged() && Accounted([]) && !cancelled
      requires skipped == [] && batch == Some(Batch(calls, []))
      modifies this`log, this`inbox, this`raised, this`nudges, this`trace, this`pending, this`cancelled
      modifies this`messages, this`origins, this`toolsUsed, this`said, this`sound, this`batch, this`skipped
      ensures Kept([], iterations) && Charged() && old(log) <= log && old(trace) <= trace && Accounted([])
      ensures Deeds(trace) == Deeds(old(trace)) + ran && |ran| <= |calls| && CallsOf(ran) == calls[..|ran|]
      ensures skipped == calls[|ran|..] && batch.Some? && batch.value.calls == calls
      ensures messages == old(messages) + ResultsOf(ran) + NotRun(skipped) + UserMessages(texts)
      ensures |ran| < |calls| ==> ending == Some(StoppedByUser)
      ensures |ran| == |calls| ==> batch.value.oks == OksOf(ran)
      ensures ending == Some(AskedUser) <==> |ran| == |calls| && HandsBack(calls, OksOf(ran), endingTools)
      ensures ending == Some(StoppedByUser) ==> cancelled && texts == []
      ensures ending == Some(AskedUser) ==> !cancelled && texts == []
      ensures ending.None? ==> pending == [] && |trace| > 1 && JustLooked(trace[..|trace| - 1])
      ensures ending.None? || ending == Some(StoppedByUser) || ending == Some(AskedUser)
    {
      hide Kept, Accounted, Deeds, JustLooked, HandsBack, CallsOf, OksOf, ResultsOf, NotRun, UserMessages;
      var ended := false;
      ran, texts := [], [];
      ghost var done, list := Deeds(trace), messages;
      NothingRun(calls, messages, endingTools);
      assert done + [] == done && calls[0..] == calls;
      for i := 0 to |calls|
        invariant Running(calls, ran, done, list) && |ran| == i && Kept(calls[i..], iterations) && Charged() && Accounted([])
        invariant old(log) <= log && old(trace) <= trace && !cancelled
        invariant ended <==> HandsBack(calls, OksOf(ran), endingTools)
      {
        var interrupt := LookBetween(calls, ran, done, list);
        if interrupt.Cancelled? {
          StopBatch(calls, i, ran, done, list);
          AllAnswered(list, ran, calls, i);
          return Some(StoppedByUser), ran, texts;
        }
        var ok;
        ghost var deed;
        ok, deed := RunNextCall(calls, i, ran, done, list);
        ended := ended || (ok && calls[i].name in endingTools);
        ran := ran + [deed];
      }
      AllAnswered(list, ran, calls, |calls|);
      if ended { return Some(AskedUser), ran, texts; }
      ending, texts := GoRound();
    }

    /** A last look behind a batch, and what was typed meanwhile. */
    method GoRound() returns (ending: Option<Ending>, ghost texts: seq<string>)
      requires Kept([], iterations) && Charged() && Accounted([])
      modifies this`log, this`inbox, this`raised, this`nudges, this`trace, this`pending, this`cancelled
      modifies this`messages, this`origins, this`said, this`sound
      ensures Kept([], iterations) && Charged() && old(log) <= log && old(trace) <= trace && Accounted([])
      ensures Deeds(trace) == Deeds(old(trace)) && messages == old(messages) + UserMessages(texts)
      ensures ending.Some? ==> ending == Some(StoppedByUser) && cancelled && texts == []
      ensures ending.None? ==> pending == [] && |trace| > 1 && JustLooked(trace[..|trace| - 1])
    {
      hide Kept, Accounted, Urgency, NudgeTexts, NudgesIn, Deeds, JustLooked;
      texts := [];
      assert UserMessages([]) == [] && messages + [] == messages;
      hide UserMessages;
      var interrupt, items := DrainInbox([], iterations);
      DeedsAfter(old(trace), Polled(items));
      if interrupt.Cancelled? { return Some(StoppedByUser), texts; }
      ghost var was, queued := trace, pending;
      ghost var _, late := FlushPending([], iterations);
      DeedsAfter(was, Polled(late));
      assert trace[..|trace| - 1] == was;
      ending, texts := None, queued + NudgeTexts(late);
    }

    /** Logs and shows a reminder about open todos, and counts it. */
    method Remind(text: string, fingerprint: string)
      requires Kept([], iterations) && todoNudges < MAX_TODO_NUDGES
      modifies this`log, this`messages, this`origins, this`todoNudges, this`todoFingerprint
      ensures Kept([], iterations) && old(log) <= log
      ensures todoNudges == old(todoNudges) + 1 && todoFingerprint == fingerprint
      ensures messages == old(messages) + [Render(SystemNote(text), false)]
    {
      hide TraceKept, Logged, Ledger, ListKept, Spaced, BackedOff, Served;
      LogNote(text, iterations);
      todoNudges := todoNudges + 1;
      todoFingerprint := fingerprint;
    }

    /** What follows a reply without calls, behind a first look at the inbox: a stop, a
        nudge, a reminder, or the end. */
    method FinishTalking(interrupted: Interrupt, ghost first: seq<InboxItem>, ghost before: nat)
      returns (ending: Option<Ending>, list: Todos.TodoList, ghost second: seq<InboxItem>)
      requires Kept([], iterations) && iterations <= replies + before + todoNudges + 1 && Accounted([])
      requires trace != [] && trace[|trace| - 1] == Polled(first) && nudges == before + NudgesIn(first)
      requires interrupted == Urgency(cancelled, first) && (interrupted.Cancelled? <==> cancelled)
      modifies this`log, this`inbox, this`raised, this`nudges, this`trace, this`pending, this`cancelled
      modifies this`messages, this`origins, this`todoNudges, this`todoFingerprint, this`said, this`sound
      ensures Kept([], iterations) && old(log) <= log && iterations <= replies + nudges + todoNudges + 1
      ensures Accounted([]) && pending == [] && nudges == before + NudgesIn(first) + NudgesIn(second)
      ensures trace == old(trace) + [Polled(second)] + (if !cancelled && nudges == before then [ReadTodos(list)] else [])
      ensures ending == if cancelled then Some(StoppedByUser)
                        else if nudges > before then None
                        else if Todos.NudgeFor(list, old(todoNudges), old(todoFingerprint), MAX_TODO_NUDGES).Some? then None
                        else Some(Stopped)
      ensures if !cancelled && nudges == before && ending.None?
              then var reminder := Todos.NudgeFor(list, old(todoNudges), old(todoFingerprint), MAX_TODO_NUDGES).value;
                   && todoNudges == old(todoNudges) + 1 && todoFingerprint == reminder.1
                   && messages != [] && messages[|messages| - 1] == Render(SystemNote(reminder.0), false)
              else todoNudges == old(todoNudges) && todoFingerprint == old(todoFingerprint)
      ensures ending.None? ==> Charged()
      ensures ending == Some(Stopped) ==> QuietEnd(trace, todoNudges, todoFingerprint, MAX_TODO_NUDGES)
    {
      hide Kept, Accounted, Todos.NudgeFor, NudgesIn, NudgeTexts, UserMessages, TextsSeen;
      list := *;
      var again;
      again, second := FlushPending([], iterations);
      match interrupted.Or(again) {
        case Cancelled => ending := Some(StoppedByUser);
        case Nudged => ending := None;
        case Clear =>
          AccountedNow([]);
          Witness(ReadTodos(list), [], iterations);
          AccountedNow([]);
          var nudge := Todos.NudgeFor(list, todoNudges, todoFingerprint, MAX_TODO_NUDGES);
          if nudge.None? {
            ending := Some(Stopped);
          } else {
            MaySpeakUp(list, todoNudges, todoFingerprint);
            Remind(nudge.value.0, nudge.value.1);
            ending := None;
          }
      }
    }

    lemma {:induction false} MaySpeakUp(list: Todos.TodoList, nudges: nat, previous: string)
      requires Todos.NudgeFor(list, nudges, previous, MAX_TODO_NUDGES).Some?
      ensures nudges < MAX_TODO_NUDGES
    {}

    /** Whether a compaction was tried at the list and size given, and what became of it. */
    ghost predicate Tried(due: bool, list: seq<Message>, sources: seq<nat>, size: nat, policy: Policy,
                          was: seq<Attempt>, until: nat, t: Try)
      reads this
    {
      var plan := PlanJobs(list, sources, size, policy, world.hidden);
      && attempts == (if due then was + [Attempt(size, t.shed)] else was)
      && backoffUntil == (if due then NextAttempt(size, plan.Some?, t.shed) else until)
      && (if due && plan.Some? then Outcome(plan.value, t.recorded, t.made, t.asked) else !t.recorded && t.asked == [])
      && (t.shed <==> t.recorded && ContextEstimate() < SatSub(size, size / 10))
      && (!t.recorded ==> messages == list && origins == sources)
    }

    /** Compacts if that is due, and looks for a stop. */
    method CompactThenLook() returns (stop: bool, ghost t: Try)
      requires Kept([], iterations) && Charged() && Accounted([]) && pending == []
      modifies this`log, this`inbox, this`raised, this`nudges, this`trace, this`pending, this`cancelled, this`messages
      modifies this`origins, this`contextTokens, this`billedTo, this`backoffUntil, this`attempts, this`sound
      ensures Kept([], iterations) && Charged() && old(log) <= log && old(trace) <= trace && Accounted([])
      ensures stop <==> cancelled
      ensures !stop ==> !raised && JustLooked(trace)
      ensures Deeds(trace) == Deeds(old(trace)) && Askings(trace) == Askings(old(trace)) + t.asked
      ensures Tried(Due(settings(iterations), [], old(ContextEstimate()), old(backoffUntil)),
                    old(messages), old(origins), old(ContextEstimate()), settings(iterations), old(attempts), old(backoffUntil), t)
    {
      hide Kept, Accounted, Urgency, NudgeTexts, NudgesIn, UserMessages, InSync, Acceptable, NudgeSince, PlanJobs, Due, Deeds, Askings;
      hide JustLooked, Planned, ContextEstimate, AskedInTurn, MadeOf, ReadsSummary, NextAttempt;
      ghost var shed, recorded, c, asked := MaybeCompact(iterations);
      t := Try(shed, recorded, c, asked);
      ghost var was := trace;
      var again, after := DrainInbox([], iterations);
      DeedsAfter(was, Polled(after));
      stop := again.Cancelled?;
    }

    /** Folds in what was typed, compacts if that is due at the size the list then has, and
        looks for a stop, in that order. */
    method Prepare() returns (stop: bool, ghost typed: seq<InboxItem>, ghost t: Try)
      requires Kept([], iterations) && Charged() && Accounted([])
      modifies this`log, this`inbox, this`raised, this`nudges, this`trace, this`pending, this`cancelled, this`messages
      modifies this`origins, this`contextTokens, this`billedTo, this`backoffUntil, this`attempts, this`said, this`sound
      ensures Kept([], iterations) && Charged() && old(log) <= log && old(trace) <= trace && Accounted([])
      ensures stop <==> cancelled
      ensures !stop ==> !raised && JustLooked(trace)
      ensures said == old(said) + old(pending) + NudgeTexts(typed) && Deeds(trace) == Deeds(old(trace))
      ensures |trace| > |old(trace)| && trace[|old(trace)|] == Polled(typed) && Askings(trace) == Askings(old(trace)) + t.asked
      ensures var list := old(messages) + UserMessages(old(pending) + NudgeTexts(typed));
              var sources := old(origins) + Zeros(|old(pending)| + |NudgeTexts(typed)|);
              var size := SizeOf(list, old((contextTokens, billedTo)));
              var due := !old(cancelled) && CancelItem !in typed && Due(settings(iterations), [], size, old(backoffUntil));
              Tried(due, list, sources, size, settings(iterations), old(attempts), old(backoffUntil), t)
    {
      hide Kept, Accounted, Urgency, NudgeTexts, NudgesIn, UserMessages, PlanJobs, Due, Deeds, Askings;
      hide JustLooked, Zeros, SizeOf, Outcome, NextAttempt;
      var interrupt;
      interrupt, typed := FlushPending([], iterations);
      DeedsAfter(old(trace), Polled(typed));
      UrgencyIs(old(cancelled), typed);
      t := Try(false, false, Compaction([], "", 0), []);
      assert Askings(trace) + [] == Askings(trace);
      if interrupt.Cancelled? { return true, typed, t; }
      hide Tried;
      stop, t := CompactThenLook();
    }

    /** Records a reply and acts on it.  Without calls a turn stops unless something was
        typed or a reminder is due; with calls it goes round unless one of them hands
        control back or a stop was pressed. */
    method Answer(reply: Reply)
      returns (ending: Option<Ending>, ghost ran: seq<Deed>, ghost list: Todos.TodoList)
      requires Kept([], iterations) && iterations <= replies + nudges + todoNudges + 1 && Accounted([]) && skipped == []
      requires answering && HeardFrom(LastStream(trace), AssistantMessage(reply.text, reply.calls, reply.usage), SawCancel(trace))
      modifies this`log, this`inbox, this`raised, this`nudges, this`trace, this`pending, this`cancelled, this`messages
      modifies this`origins, this`contextTokens, this`billedTo, this`promptTokens, this`completionTokens, this`cost
      modifies this`replies, this`todoNudges, this`todoFingerprint, this`toolsUsed, this`said, this`sound, this`batch, this`skipped
      modifies this`answering
      ensures !answering && Kept([], iterations) && old(log) <= log && old(trace) <= trace
      ensures Accounted([]) && (ending.None? ==> pending == [])
      ensures ending.None? ==> Charged()
      ensures iterations <= replies + nudges + todoNudges + 1
      ensures batch.Some? && batch.value.calls == reply.calls
      ensures Deeds(trace) == Deeds(old(trace)) + ran && |ran| <= |reply.calls| && CallsOf(ran) == reply.calls[..|ran|]
      ensures skipped == reply.calls[|ran|..] && (|ran| == |reply.calls| ==> batch.value.oks == OksOf(ran))
      ensures reply.calls == [] ==>
                ending == if cancelled then Some(StoppedByUser)
                          else if nudges > old(nudges) then None
                          else if Todos.NudgeFor(list, old(todoNudges), old(todoFingerprint), MAX_TODO_NUDGES).Some? then None
                          else Some(Stopped)
      ensures reply.calls == [] && !cancelled && nudges == old(nudges) ==> trace != [] && trace[|trace| - 1] == ReadTodos(list)
      ensures reply.calls == [] && ending.None? ==> Stirred(trace) || todoNudges == old(todoNudges) + 1
      ensures reply.calls != [] ==>
                && (|ran| < |reply.calls| ==> ending == Some(StoppedByUser))
                && (ending == Some(AskedUser) <==> |ran| == |reply.calls| && HandsBack(reply.calls, OksOf(ran), endingTools))
                && (ending == Some(StoppedByUser) ==> cancelled) && (ending == Some(AskedUser) ==> !cancelled)
                && (ending.None? ==> |trace| > 1 && JustLooked(trace[..|trace| - 1]))
                && ending != Some(Stopped)
      ensures ending.None? || ending == Some(StoppedByUser) || ending == Some(AskedUser) || ending == Some(Stopped)
      ensures ending == Some(Stopped) ==> QuietEnd(trace, todoNudges, todoFingerprint, MAX_TODO_NUDGES)
    {
      hide Kept, Accounted, Urgency, NudgeTexts, NudgesIn, UserMessages, Deeds, JustLooked, QuietEnd, HandsBack, Todos.NudgeFor;
      hide CallsOf, OksOf, Repriced, LastAt, HeardFrom, LastStream, SawCancel, Added;
      list, ran := Todos.EMPTY, [];
      var interrupted, first := LogThenFlush(reply);
      if reply.calls == [] {
        ending, list := AnswerTalk(interrupted, first, old(nudges), old(cancelled));
        NoCalls(Deeds(old(trace)));
      } else {
        ending, ran := AnswerCalls(reply.calls, interrupted);
      }
    }

    /** Logs a reply, and says what was typed while it was written. */
    method LogThenFlush(reply: Reply) returns (interrupted: Interrupt, ghost first: seq<InboxItem>)
      requires Kept([], iterations) && Accounted([]) && skipped == []
      requires answering && HeardFrom(LastStream(trace), AssistantMessage(reply.text, reply.calls, reply.usage), SawCancel(trace))
      modifies this`log, this`inbox, this`raised, this`nudges, this`trace, this`pending, this`cancelled, this`messages
      modifies this`origins, this`contextTokens, this`billedTo, this`promptTokens, this`completionTokens, this`cost
      modifies this`replies, this`said, this`sound, this`batch, this`answering
      ensures !answering && Kept(reply.calls, iterations) && old(log) <= log && Accounted([]) && pending == []
      ensures batch == Some(Batch(reply.calls, [])) && replies == old(replies) + (if reply.calls != [] then 1 else 0)
      ensures trace == old(trace) + [Polled(first)] && Deeds(trace) == Deeds(old(trace)) && nudges == old(nudges) + NudgesIn(first)
      ensures interrupted == Urgency(old(cancelled), first) && (interrupted.Cancelled? <==> cancelled)
      ensures messages == old(messages) + [Assistant(reply.text, reply.calls)] + UserMessages(old(pending) + NudgeTexts(first))
      ensures |log| > |old(log)| && log[|old(log)|].event == AssistantMessage(reply.text, reply.calls, reply.usage)
    {
      hide Kept, Accounted, Urgency, NudgeTexts, NudgesIn, UserMessages, Deeds, Repriced, LastAt, HeardFrom, LastStream, SawCancel, Added;
      LogReply(reply);
      interrupted, first := FlushPending(reply.calls, iterations);
      DeedsAfter(old(trace), Polled(first));
    }

    lemma {:induction false} NoCalls(deeds: seq<Deed>)
      ensures deeds + [] == deeds && CallsOf([]) == [] && OksOf([]) == []
    {}

    /** A reply without calls. */
    method AnswerTalk(interrupted: Interrupt, ghost first: seq<InboxItem>, ghost before: nat, ghost was: bool)
      returns (ending: Option<Ending>, ghost list: Todos.TodoList)
      requires Kept([], iterations) && iterations <= replies + before + todoNudges + 1 && Accounted([])
      requires trace != [] && trace[|trace| - 1] == Polled(first) && nudges == before + NudgesIn(first)
      requires interrupted == Urgency(was, first) && (interrupted.Cancelled? <==> cancelled)
      modifies this`log, this`inbox, this`raised, this`nudges, this`trace, this`pending, this`cancelled
      modifies this`messages, this`origins, this`todoNudges, this`todoFingerprint, this`said, this`sound
      ensures Kept([], iterations) && old(log) <= log && old(trace) <= trace && iterations <= replies + nudges + todoNudges + 1
      ensures Accounted([]) && pending == [] && Deeds(trace) == Deeds(old(trace)) && (ending.None? ==> Charged())
      ensures ending == if cancelled then Some(StoppedByUser)
                        else if nudges > before then None
                        else if Todos.NudgeFor(list, old(todoNudges), old(todoFingerprint), MAX_TODO_NUDGES).Some? then None
                        else Some(Stopped)
      ensures !cancelled && nudges == before ==> trace != [] && trace[|trace| - 1] == ReadTodos(list)
      ensures ending.None? ==> Stirred(trace) || todoNudges == old(todoNudges) + 1
      ensures ending == Some(Stopped) ==> QuietEnd(trace, todoNudges, todoFingerprint, MAX_TODO_NUDGES)
    {
      hide Kept, Accounted, Urgency, NudgeTexts, NudgesIn, Deeds, QuietEnd, Todos.NudgeFor;
      UrgencySame(was, cancelled, first);
      ghost var second;
      ending, list, second := FinishTalking(interrupted, first, before);
      LooksAndReads(old(trace), trace, second, list);
    }

    lemma {:induction false} UrgencySame(was: bool, now: bool, items: seq<InboxItem>)
      requires Urgency(was, items).Cancelled? <==> now
      ensures Urgency(now, items) == Urgency(was, items)
    {}

    /** A reply with calls. */
    method AnswerCalls(calls: seq<Call>, interrupted: Interrupt) returns (ending: Option<Ending>, ghost ran: seq<Deed>)
      requires Kept(calls, iterations) && Charged() && Accounted([]) && calls != []
      requires skipped == [] && batch == Some(Batch(calls, [])) && (interrupted.Cancelled? <==> cancelled)
      modifies this`log, this`inbox, this`raised, this`nudges, this`trace, this`pending, this`cancelled
      modifies this`messages, this`origins, this`toolsUsed, this`said, this`sound, this`batch, this`skipped
      ensures Kept([], iterations) && Charged() && old(log) <= log && old(trace) <= trace && Accounted([])
      ensures Deeds(trace) == Deeds(old(trace)) + ran && |ran| <= |calls| && CallsOf(ran) == calls[..|ran|]
      ensures skipped == calls[|ran|..] && batch.Some? && batch.value.calls == calls
      ensures |ran| < |calls| ==> ending == Some(StoppedByUser)
      ensures |ran| == |calls| ==> batch.value.oks == OksOf(ran)
      ensures ending == Some(AskedUser) <==> |ran| == |calls| && HandsBack(calls, OksOf(ran), endingTools)
      ensures ending == Some(StoppedByUser) ==> cancelled
      ensures ending == Some(AskedUser) ==> !cancelled
      ensures ending.None? ==> pending == [] && |trace| > 1 && JustLooked(trace[..|trace| - 1])
      ensures ending.None? || ending == Some(StoppedByUser) || ending == Some(AskedUser)
    {
      hide Kept, Accounted, Deeds, JustLooked, HandsBack, CallsOf, OksOf, ResultsOf, NotRun, UserMessages;
      ran := [];
      NoCalls(Deeds(trace));
      if interrupted.Cancelled? {
        assert calls[0..] == calls && [] + calls == calls;
        CancelRemaining(calls, 0);
        return Some(StoppedByUser), ran;
      }
      ghost var texts;
      ending, ran, texts := RunTools(calls);
    }

    /** Looking at the inbox and reading the todos runs nothing. */
    lemma {:induction false} LooksAndReads(was: seq<Act>, now: seq<Act>, items: seq<InboxItem>, list: Todos.TodoList)
      requires now == was + [Polled(items)] + [ReadTodos(list)] || now == was + [Polled(items)] + []
      ensures Deeds(now) == Deeds(was)
    {
      hide Deeds;
      DeedsAfter(was, Polled(items));
      DeedsAfter(was + [Polled(items)], ReadTodos(list));
      assert was + [Polled(items)] + [] == was + [Polled(items)];
    }

    /** One completion, and what follows its reply. */
    method Complete() returns (ending: Option<Ending>)
      requires Kept([], iterations) && Charged() && Accounted([]) && skipped == [] && !HandedBack(batch, endingTools)
      requires !raised && JustLooked(trace) && !answering
      modifies this`log, this`inbox, this`raised, this`nudges, this`trace, this`pending, this`cancelled, this`messages
      modifies this`origins, this`contextTokens, this`billedTo, this`promptTokens, this`completionTokens, this`cost, this`iterations
      modifies this`answering
      modifies this`replies, this`todoNudges, this`todoFingerprint, this`toolsUsed, this`said, this`sound, this`batch, this`skipped
      ensures Kept([], iterations) && old(log) <= log && old(trace) <= trace && iterations == old(iterations) + 1
      ensures Accounted([]) && (ending.None? ==> pending == [] && Charged() && skipped == [])
      ensures iterations <= replies + nudges + todoNudges + 1
      ensures ending == Some(AskedUser) <==> !cancelled && HandedBack(batch, endingTools)
      ensures ending.None? ==> !HandedBack(batch, endingTools)
      ensures ending.None? && batch.Some? && batch.value.calls == [] ==> Stirred(trace) || todoNudges == old(todoNudges) + 1
      ensures ending == Some(Stopped) ==>
                batch == Some(Batch([], [])) && !cancelled && QuietEnd(trace, todoNudges, todoFingerprint, MAX_TODO_NUDGES)
      ensures ending == Some(StoppedByUser) ==> cancelled
      ensures ending.Some? && cancelled ==> ending == Some(StoppedByUser)
      ensures ending.Some? && ending.value.LlmError? ==> Fails(LastStream(trace))
      ensures answering <==> ending.Some? && ending.value.LlmError?
      ensures skipped != [] ==> ending == Some(StoppedByUser)
      ensures ending != Some(OutOfIterations)
    {
      hide Kept, Accounted, Deeds, Askings, LastStream, Fails, JustLooked, QuietEnd, Todos.NudgeFor, RunsToEnd, Spoken, CallsAsked;
      hide CallsOf, OksOf, HandsBack, HeardFrom, SawCancel;
      ghost var n := iterations;
      iterations := iterations + 1;
      var streamed, _ := StreamCompletion(n);
      if streamed.Err? { return Some(LlmError(streamed.error)); }
      ghost var ran, list;
      ending, ran, list := Answer(streamed.value);
      NothingHandsBack(OksOf(ran), endingTools);
      if streamed.value.calls == [] { NoOks(ran); }
    }

    lemma {:induction false} NothingHandsBack(oks: seq<bool>, endingTools: set<string>)
      ensures !HandsBack([], oks, endingTools)
    {}

    lemma {:induction false} NoOks(ran: seq<Deed>)
      requires ran == []
      ensures OksOf(ran) == []
    {}

    /** One pass of the loop: None to go round again. */
    method Iterate() returns (ending: Option<Ending>, ghost typed: seq<InboxItem>, ghost t: Try)
      requires Kept([], iterations) && Charged() && Accounted([]) && skipped == [] && !HandedBack(batch, endingTools)
      requires !answering
      modifies this
      ensures Kept([], iterations) && old(log) <= log
      ensures Accounted([]) && (ending.None? ==> pending == [])
      ensures ending.None? ==> Charged() && iterations == old(iterations) + 1 && skipped == []
      ensures iterations <= replies + nudges + todoNudges + 1
      ensures |trace| > |old(trace)| && trace[|old(trace)|] == Polled(typed)
      ensures var size := SizeOf(old(messages) + UserMessages(old(pending) + NudgeTexts(typed)), old((contextTokens, billedTo)));
              attempts == if !old(cancelled) && CancelItem !in typed && Due(settings(old(iterations)), [], size, old(backoffUntil))
                          then old(attempts) + [Attempt(size, t.shed)] else old(attempts)
      ensures ending == Some(AskedUser) <==> !cancelled && HandedBack(batch, endingTools)
      ensures ending.None? ==> !HandedBack(batch, endingTools)
      ensures ending.None? && batch.Some? && batch.value.calls == [] ==> Stirred(trace) || todoNudges == old(todoNudges) + 1
      ensures ending == Some(Stopped) ==>
                batch == Some(Batch([], [])) && !cancelled && QuietEnd(trace, todoNudges, todoFingerprint, MAX_TODO_NUDGES)
      ensures ending == Some(StoppedByUser) ==> cancelled
      ensures ending.Some? && cancelled ==> ending == Some(StoppedByUser)
      ensures ending.Some? && ending.value.LlmError? ==> Fails(LastStream(trace))
      ensures answering <==> ending.Some? && ending.value.LlmError?
      ensures skipped != [] ==> ending == Some(StoppedByUser)
      ensures ending != Some(OutOfIterations)
    {
      hide Kept, Accounted, NudgeTexts, UserMessages, PlanJobs, Due, Outcome, SizeOf, Zeros, NextAttempt, Deeds, Askings;
      hide LastStream, Fails, JustLooked, QuietEnd, HandedBack;
      var stop;
      stop, typed, t := Prepare();
      if stop { return Some(StoppedByUser), typed, t; }
      ending := Complete();
    }

    /** What a turn may start from. */
    ghost predicate Fresh()
      reads this
    {
      && Chronological(log) && SpansBehind(log) && world.start == |log| && world.since == LastAt(log)
      && trace == [] && said == [] && attempts == [] && pending == [] && inbox == [] && batch == None && skipped == []
      && !answering && iterations == 0 && replies == 0 && nudges == 0 && todoNudges == 0 && !cancelled
      && (world.calm ==> NothingHiddenSince(world.hidden, world.since))
      && (world.whole ==> LogStanding(log, world.hidden, world.since, []))
    }

    /** Right after the first rebuild everything holds. */
    lemma {:induction false} StartKept()
      requires Fresh() && InSync(log, world.hidden, messages, origins, (contextTokens, billedTo))
      requires sound == Acceptable(messages)
      ensures Kept([], 0) && Accounted([]) && !HandedBack(batch, endingTools)
    {
      hide LogStanding, InSync, ListKept, NothingHiddenSince, SpansBehind, Acceptable;
      assert log[world.start..] == [] && Ids([]) == [] && NotRun([]) == [] && CallsOf([]) == [] && ResultsOf([]) == [];
      ListRebuilt(world, log, messages, origins, (contextTokens, billedTo));
    }

    /** The note a turn out of iterations leaves; its list is not read again. */
    method NoteExhaustion()
      requires Chronological(log) && world.start <= |log|
      modifies this`log
      ensures |log| == |old(log)| + 1 && old(log) <= log && log[|old(log)|].event == SystemNote(EXHAUSTED)
      ensures Settled(log[world.start..]) == Settled(old(log)[world.start..])
      ensures CallingReplies(log[world.start..]) == CallingReplies(old(log)[world.start..])
      ensures NudgesLogged(log[world.start..]) == NudgesLogged(old(log)[world.start..])
      ensures Served(world, old(log), trace, Now([])) ==> Served(world, log, trace, Now([]))
    {
      hide Settled, CallingReplies, NudgesLogged, Served;
      var e := SystemNote(EXHAUSTED);
      var at := Append(e);
      SettledAfter(old(log), world.start, Record(at, e));
      NudgesAfter(old(log), world.start, Record(at, e));
      if Served(world, old(log), trace, Now([])) {
        ServedAfterQuiet(world, old(log), trace, Now([]), Record(at, e));
      }
    }

    /** The whole turn.  It stops by itself only behind a reply without calls, nothing
        typed and no reminder due; it hands control back exactly when the last batch did;
        it ends as stopped exactly when a cancel was seen, unless it ran out; and it fails
        only with its stream.  The calls run are those its replies asked for, in order,
        each result logged being what came of its call; only a stop leaves some out, and
        those are answered as not run.  Its replies are what its streams spelled, each to
        its end unless a cancel was seen.  After a reported cancel it opens no stream, calls
        no tool and asks for no summary, and it does none of these without having just
        looked.  Every nudge logged meanwhile was said once, in order, or waits in the
        queue or the inbox; and it makes at most one completion more than its calling
        replies, the nudges it saw and its reminders.  A request is acceptable exactly
        when its list was sound, and in an undisturbed turn it is the projection of the
        log. */
    method Run() returns (ending: Ending)
      requires Fresh()
      modifies this
      ensures old(log) <= log && Settled(log[world.start..]) == Some([])
      ensures ending.Stopped? ==>
                LastBatch(log[world.start..]) == Some(Batch([], [])) && QuietEnd(trace, todoNudges, todoFingerprint, MAX_TODO_NUDGES)
      ensures ending.AskedUser? <==> !cancelled && HandedBack(LastBatch(log[world.start..]), endingTools)
      ensures (ending.StoppedByUser? <==> cancelled && !ending.OutOfIterations?) && (cancelled ==> SawCancel(trace))
      ensures ending.LlmError? ==> Fails(LastStream(trace))
      ensures ending.OutOfIterations? ==> iterations == U32_MAX && log != [] && log[|log| - 1].event == SystemNote(EXHAUSTED)
      ensures var calls, deeds := CallsLogged(log[world.start..]), Deeds(trace);
              && |deeds| <= |calls| && CallsOf(deeds) == calls[..|deeds|]
              && ResultsLogged(log[world.start..]) == ResultsOf(deeds) + NotRun(calls[|deeds|..])
              && (!ending.StoppedByUser? ==> |deeds| == |calls|)
      ensures Transcribed(log[world.start..], trace, ending.LlmError?)
      ensures IdleAfterCancel(trace) && Watched(trace)
      ensures NudgesLogged(log[world.start..]) == said + pending + inbox
      ensures iterations == Completions(trace)
      ensures iterations <= CallingReplies(log[world.start..]) + NudgesSeen(trace) + MAX_TODO_NUDGES + 1
      ensures Spaced(attempts)
      ensures RequestsFair(trace, world)
      ensures Undisturbed(world, log) && ending != OutOfIterations ==>
                Synced(log, world.hidden, world.since, messages, origins, (contextTokens, billedTo))
      ensures Undisturbed(world, log) && world.whole && ending != OutOfIterations ==>
                LogStanding(log, world.hidden, world.since, [])
    {
      hide Kept, Accounted, RequestsFair, IdleAfterCancel, Spaced, LogStanding, Synced, InSync, Undisturbed, Watched, QuietEnd, Fails;
      hide SpansBehind, NudgesLogged, Acceptable, Settled, CallingReplies, NudgesSeen, Completions, Chronological, Served, LastBatch;
      hide CallsLogged, ResultsLogged, Deeds, LastStream, HandedBack, SizeOf, Due, UserMessages, NudgeTexts, Transcribed, SawCancel;
      Rehydrate();
      sound := Acceptable(messages);
      StartKept();
      while true
        invariant old(log) <= log && Kept([], iterations) && Charged() && iterations <= U32_MAX
        invariant Accounted([]) && pending == [] && skipped == [] && !HandedBack(batch, endingTools) && !answering
        decreases U32_MAX - iterations
      {
        if iterations >= U32_MAX {
          KeptPromises(iterations);
          NoteExhaustion();
          ServedPromises();
          return OutOfIterations;
        }
        var next, _, _ := Iterate();
        if next.Some? {
          KeptPromises(iterations);
          ServedPromises();
          return next.value;
        }
      }
    }

    /** What was logged meanwhile was said, is queued, or waits in the inbox. */
    lemma {:induction false} SaidSoFar(left: seq<Call>, n: nat)
      requires Kept(left, n) && Accounted([])
      ensures world.start <= |log| && Chronological(log) && NudgesLogged(log[world.start..]) == said + pending + inbox
    {
      hide TraceKept, Logged, ListKept, Spaced, BackedOff, NudgesLogged, TextsSeen, Served, Ids;
      KeptMeans(left, n);
      LoggedMeans(left);
      LedgerNow();
      AccountedNow([]);
    }

    /** What the ledger of calls comes to. */
    lemma {:induction false} ServedPromises()
      requires Served(world, log, trace, Now([]))
      ensures LastBatch(log[world.start..]) == batch && Transcribed(log[world.start..], trace, answering)
      ensures var calls, deeds := CallsLogged(log[world.start..]), Deeds(trace);
              && |deeds| <= |calls| && CallsOf(deeds) == calls[..|deeds|] && skipped == calls[|deeds|..]
              && ResultsLogged(log[world.start..]) == ResultsOf(deeds) + NotRun(calls[|deeds|..])
    {
      ServedMeans(world, log, trace, Now([]));
      hide Transcribed;
    }

    /** What is kept, as a reader of the finished turn sees it. */
    lemma {:induction false} KeptPromises(n: nat)
      requires Kept([], n) && Accounted([])
      ensures Chronological(log) && world.start <= |log| && Settled(log[world.start..]) == Some([])
      ensures replies == CallingReplies(log[world.start..]) && nudges == NudgesSeen(trace) && n == Completions(trace)
      ensures IdleAfterCancel(trace) && Watched(trace) && Spaced(attempts) && RequestsFair(trace, world)
      ensures todoNudges <= MAX_TODO_NUDGES && Served(world, log, trace, Now([])) && (cancelled ==> SawCancel(trace))
      ensures NudgesLogged(log[world.start..]) == said + pending + inbox
      ensures Undisturbed(world, log) ==> Synced(log, world.hidden, world.since, messages, origins, (contextTokens, billedTo))
      ensures Undisturbed(world, log) && world.whole ==> LogStanding(log, world.hidden, world.since, [])
    {
      assert Ids([]) == [];
      hide RequestsFair, IdleAfterCancel, SawCancel, Spaced, BackedOff, LogStanding, Synced, Undisturbed, Sourced, OwesAs, Served, Watched;
      hide SpansBehind, NudgesLogged, TextsSeen, Chronological, Settled, CallingReplies, NudgesSeen, Completions, NothingHiddenSince;
      KeptMeans([], n);
      AccountedNow([]);
    }
  }
}
