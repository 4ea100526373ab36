/** What each conversation is doing, folded from its frames.

    The fold keeps counters that saturate, a step and an outcome; what it means is
    said about the whole history of frames, without the fold. */
module ActivityFold {
  import opened EventLog

  const ASK_TOOL: string := "ask_user"

  datatype Mode = Idle | Working | Waiting | Broken

  datatype Frame =
    | UserSaid
    | TurnStarted
    | Reasoning
    | Delta
    | Compacting
    | ToolCall(name: string)
    | AssistantSaid(cost: nat)
    | TurnFinished(stoppedBy: string)
    | ChildStarted
    | ChildFinished
    | OtherFrame

  /** A frame with its own clock; `now` is the reader's, for a turn never seen to start. */
  datatype Stamped = Stamped(frame: Frame, ts: nat, now: nat)

  datatype Snapshot = Snapshot(mode: Mode, step: string, steps: nat, cost: nat, agents: nat,
                               since: nat, outcome: string, rev: nat)

  const IDLE: Snapshot := Snapshot(Idle, "", 0, 0, 0, 0, "", 0)

  function Begin(s: Snapshot, ts: nat): Snapshot {
    s.(mode := Working, step := "starting", steps := 0, cost := 0, since := ts, outcome := "")
  }

  function WorkingStep(s: Snapshot, step: string, now: nat): Snapshot {
    (if s.mode.Working? then s else Begin(s, now)).(step := step)
  }

  predicate Asked(s: Snapshot, stoppedBy: string) {
    stoppedBy == "asked" || (stoppedBy == "stop" && s.step == ASK_TOOL)
  }

  function Apply(s: Snapshot, f: Stamped): Snapshot {
    match f.frame
    case ChildStarted => s.(agents := SatAdd(s.agents, 1))
    case ChildFinished => s.(agents := SatSub(s.agents, 1))
    case UserSaid => if s.mode.Working? then s else Begin(s, f.ts)
    case TurnStarted => (if s.mode.Working? then s else Begin(s, f.ts)).(step := "thinking")
    case Reasoning => WorkingStep(s, "thinking", f.now)
    case Delta => WorkingStep(s, "writing", f.now)
    case Compacting => WorkingStep(s, "compacting", f.now)
    case ToolCall(name) =>
      var w := WorkingStep(s, name, f.now);
      w.(steps := SatAdd(w.steps, 1))
    case AssistantSaid(cost) => s.(cost := s.cost + cost)
    case TurnFinished(stoppedBy) =>
      var asked := Asked(s, stoppedBy);
      s.(mode := if asked then Waiting
                 else if stoppedBy in {"stop", "cancelled", "restarted", ""} then Idle else Broken,
         step := "", since := f.ts, outcome := if asked then "asked" else stoppedBy)
    case OtherFrame => s
  }

  function Fold(frames: seq<Stamped>): Snapshot {
    if frames == [] then IDLE else Apply(Fold(frames[..|frames| - 1]), frames[|frames| - 1])
  }

  // --- what the fold means ---------------------------------------------------------------

  predicate StartsWork(f: Frame) {
    f.UserSaid? || f.TurnStarted? || f.Reasoning? || f.Delta? || f.Compacting? || f.ToolCall?
  }

  /** A conversation works from the first frame of work after its last turn ended. */
  ghost predicate AtWork(frames: seq<Stamped>) {
    exists i :: 0 <= i < |frames| && StartsWork(frames[i].frame)
             && forall k | i < k < |frames| :: !frames[k].frame.TurnFinished?
  }

  /** Where the present or last spell of work began: the first frame of work behind
      everything up to the end of the turn before it. */
  ghost predicate SpellFrom(frames: seq<Stamped>, from: nat) {
    && from < |frames| && StartsWork(frames[from].frame)
    && (forall k | from < k < |frames| && frames[k].frame.TurnFinished? ::
          forall m | k < m < |frames| :: !StartsWork(frames[m].frame))
    && !AtWork(frames[..from])
  }

  function ToolCalls(frames: seq<Stamped>): nat {
    if frames == [] then 0
    else ToolCalls(frames[..|frames| - 1]) + (if frames[|frames| - 1].frame.ToolCall? then 1 else 0)
  }

  /** Child starts less child finishes. */
  function ChildBalance(frames: seq<Stamped>): int {
    if frames == [] then 0
    else ChildBalance(frames[..|frames| - 1])
         + (if frames[|frames| - 1].frame.ChildStarted? then 1
            else if frames[|frames| - 1].frame.ChildFinished? then -1 else 0)
  }

  /** No stretch of the history leaves more children running than a u32 counts. */
  ghost predicate Countable(frames: seq<Stamped>) {
    forall k: nat, j: nat | k <= j <= |frames| :: ChildBalance(frames[..j][k..]) <= U32_MAX
  }

  lemma {:induction false} CountablePrefix(frames: seq<Stamped>)
    requires Countable(frames) && frames != []
    ensures Countable(frames[..|frames| - 1])
  {
    var init := frames[..|frames| - 1];
    forall k: nat, j: nat | k <= j <= |init| ensures ChildBalance(init[..j][k..]) <= U32_MAX {
      assert init[..j] == frames[..j];
    }
  }

  lemma {:induction false} BalanceSnoc(frames: seq<Stamped>, k: nat)
    requires k < |frames|
    ensures ChildBalance(frames[k..])
         == ChildBalance(frames[..|frames| - 1][k..])
          + (if frames[|frames| - 1].frame.ChildStarted? then 1
             else if frames[|frames| - 1].frame.ChildFinished? then -1 else 0)
  {
    var n := |frames| - 1;
    assert frames[k..][..n - k] == frames[..n][k..];
  }

  /** Running sub-agents are the most that any recent stretch of the history leaves
      started and unfinished: a finish nobody saw start is forgotten. */
  lemma {:induction false} AgentsAreTheLargestBalance(frames: seq<Stamped>)
    requires Countable(frames)
    ensures forall k: nat | k <= |frames| :: ChildBalance(frames[k..]) <= Fold(frames).agents
    ensures exists k: nat :: k <= |frames| && ChildBalance(frames[k..]) == Fold(frames).agents
  {
    if frames == [] {
      assert ChildBalance(frames[0..]) == Fold(frames).agents;
    } else {
      var n := |frames| - 1;
      var init := frames[..n];
      CountablePrefix(frames);
      AgentsAreTheLargestBalance(init);
      hide Fold, ChildBalance;
      AgentsStep(frames);
      NoBalance(frames[|frames|..]);
      forall k: nat | k <= |frames| ensures ChildBalance(frames[k..]) <= Fold(frames).agents {
        if k <= n {
          BalanceSnoc(frames, k);
          assert frames[..|frames|] == frames && ChildBalance(frames[..|frames|][k..]) <= U32_MAX;
        }
      }
      var j: nat :| j <= n && ChildBalance(init[j..]) == Fold(init).agents;
      BalanceSnoc(frames, j);
      assert frames[..|frames|] == frames && ChildBalance(frames[..|frames|][j..]) <= U32_MAX;
      var best := if frames[n].frame.ChildFinished? && Fold(init).agents == 0 then |frames| else j;
      assert best <= |frames| && ChildBalance(frames[best..]) == Fold(frames).agents;
    }
  }

  lemma {:induction false} NoBalance(none: seq<Stamped>)
    requires none == []
    ensures ChildBalance(none) == 0
  {}

  lemma {:induction false} AgentsStep(frames: seq<Stamped>)
    requires frames != []
    ensures var was, f := Fold(frames[..|frames| - 1]).agents, frames[|frames| - 1].frame;
            Fold(frames).agents == if f.ChildStarted? then SatAdd(was, 1)
                                   else if f.ChildFinished? then SatSub(was, 1) else was
  {}

  /** Working or not, and what shows with it: the step is empty outside work, the
      outcome inside it. */
  lemma {:induction false} ModeIsAtWork(frames: seq<Stamped>)
    ensures Fold(frames).mode.Working? <==> AtWork(frames)
    ensures !Fold(frames).mode.Working? ==> Fold(frames).step == ""
    ensures Fold(frames).mode.Working? ==> Fold(frames).outcome == ""
  {
    if frames != [] {
      var n := |frames| - 1;
      ModeIsAtWork(frames[..n]);
      AtWorkSnoc(frames);
    }
  }

  lemma {:induction false} AtWorkSnoc(frames: seq<Stamped>)
    requires frames != []
    ensures var f := frames[|frames| - 1].frame;
            AtWork(frames) <==> StartsWork(f) || (AtWork(frames[..|frames| - 1]) && !f.TurnFinished?)
  {
    var n := |frames| - 1;
    var init, f := frames[..n], frames[n].frame;
    if StartsWork(f) { assert StartsWork(frames[n].frame); }
    if AtWork(init) && !f.TurnFinished? {
      var i :| 0 <= i < n && StartsWork(init[i].frame) && forall k | i < k < n :: !init[k].frame.TurnFinished?;
      forall k | i < k < |frames| ensures !frames[k].frame.TurnFinished? { if k < n { assert init[k] == frames[k]; } }
      assert StartsWork(frames[i].frame);
    }
    if AtWork(frames) && !StartsWork(f) {
      var i :| 0 <= i < |frames| && StartsWork(frames[i].frame) && forall k | i < k < |frames| :: !frames[k].frame.TurnFinished?;
      assert i < n && StartsWork(init[i].frame);
      forall k | i < k < n ensures !init[k].frame.TurnFinished? { assert init[k] == frames[k]; }
    }
  }

  lemma {:induction false} ToolCallsSnoc(frames: seq<Stamped>, from: nat)
    requires from < |frames|
    ensures ToolCalls(frames[from..])
         == ToolCalls(frames[..|frames| - 1][from..]) + (if frames[|frames| - 1].frame.ToolCall? then 1 else 0)
  {
    var n := |frames| - 1;
    assert frames[from..][..n - from] == frames[..n][from..];
  }

  /** Steps count the parent's tool calls since work last began. */
  lemma {:induction false} StepsAreToolCalls(frames: seq<Stamped>, from: nat)
    requires SpellFrom(frames, from)
    ensures Fold(frames).steps == Min(ToolCalls(frames[from..]), U32_MAX)
    decreases |frames|
  {
    var n := |frames| - 1;
    var init := frames[..n];
    ToolCallsSnoc(frames, from);
    ModeIsAtWork(init);
    hide AtWork, SpellFrom;
    if from == n {
      assert init == frames[..from];
      assert ToolCalls(init[from..]) == 0 by { assert init[from..] == []; }
    } else {
      SpellShorter(frames, from);
      StepsAreToolCalls(init, from);
      if StartsWork(frames[n].frame) { SpellAtWork(frames, from); }
    }
  }

  lemma {:induction false} SpellShorter(frames: seq<Stamped>, from: nat)
    requires SpellFrom(frames, from) && from < |frames| - 1
    ensures SpellFrom(frames[..|frames| - 1], from)
  {
    var init := frames[..|frames| - 1];
    assert init[..from] == frames[..from];
    forall k | from < k < |init| && init[k].frame.TurnFinished? ensures forall m | k < m < |init| :: !StartsWork(init[m].frame) {
      forall m | k < m < |init| ensures !StartsWork(init[m].frame) { assert frames[k] == init[k] && frames[m] == init[m]; }
    }
  }

  /** Work that goes on at the last frame never stopped since it began. */
  lemma {:induction false} SpellAtWork(frames: seq<Stamped>, from: nat)
    requires SpellFrom(frames, from) && from < |frames| - 1 && StartsWork(frames[|frames| - 1].frame)
    ensures AtWork(frames[..|frames| - 1])
  {
    var n := |frames| - 1;
    var init := frames[..n];
    forall k | from < k < n ensures !init[k].frame.TurnFinished? {
      assert init[k] == frames[k] && StartsWork(frames[n].frame);
    }
    assert StartsWork(init[from].frame);
  }

  /** What a conversation is left as when a turn ends, read off how it ended and what
      was last being done. */
  function LeftAs(stoppedBy: string, step: string): (Mode, string) {
    if stoppedBy == "asked" || (stoppedBy == "stop" && step == ASK_TOOL) then (Waiting, "asked")
    else if stoppedBy in {"stop", "cancelled", "restarted", ""} then (Idle, stoppedBy)
    else (Broken, stoppedBy)
  }

  /** Nothing since has begun work or ended a turn. */
  ghost predicate QuietSince(frames: seq<Stamped>, i: nat) {
    forall k | i <= k < |frames| :: !StartsWork(frames[k].frame) && !frames[k].frame.TurnFinished?
  }

  /** Outside work a conversation shows how its last turn ended, and when. */
  lemma {:induction false} EndShows(frames: seq<Stamped>, i: nat)
    requires i < |frames| && frames[i].frame.TurnFinished? && QuietSince(frames, i + 1)
    ensures var s, left := Fold(frames), LeftAs(frames[i].frame.stoppedBy, Fold(frames[..i]).step);
            s.mode == left.0 && s.outcome == left.1 && s.since == frames[i].ts && s.step == ""
    decreases |frames|
  {
    var n := |frames| - 1;
    if i < n {
      assert frames[..n][..i] == frames[..i];
      EndShows(frames[..n], i);
    }
  }

  lemma {:induction false} NothingYet(frames: seq<Stamped>)
    requires QuietSince(frames, 0)
    ensures var s := Fold(frames); s.mode == Idle && s.outcome == "" && s.since == 0 && s.step == "" && s.steps == 0
  {
    if frames != [] { NothingYet(frames[..|frames| - 1]); }
  }

  predicate Labelled(f: Frame) { f.TurnStarted? || f.Reasoning? || f.Delta? || f.Compacting? || f.ToolCall? }

  /** What a frame of work is called. */
  function Label(f: Frame): string
    requires Labelled(f)
  {
    match f
    case TurnStarted => "thinking"
    case Reasoning => "thinking"
    case Delta => "writing"
    case Compacting => "compacting"
    case ToolCall(name) => name
  }

  /** At work a conversation shows the last thing it was seen doing, */
  lemma {:induction false} StepIsLastLabel(frames: seq<Stamped>, i: nat)
    requires i < |frames| && Labelled(frames[i].frame)
    requires forall k | i < k < |frames| :: !Labelled(frames[k].frame) && !frames[k].frame.TurnFinished?
    ensures Fold(frames).mode.Working? && Fold(frames).step == Label(frames[i].frame)
    decreases |frames|
  {
    var n := |frames| - 1;
    if i < n { StepIsLastLabel(frames[..n], i); }
  }

  /** or that it is starting, while all it was seen to do is to be spoken to. */
  lemma {:induction false} StepIsStarting(frames: seq<Stamped>, from: nat)
    requires from < |frames| && frames[from].frame.UserSaid? && !AtWork(frames[..from])
    requires forall k | from < k < |frames| :: !Labelled(frames[k].frame) && !frames[k].frame.TurnFinished?
    ensures Fold(frames).mode.Working? && Fold(frames).step == "starting"
    decreases |frames|
  {
    var n := |frames| - 1;
    if from < n {
      assert frames[..n][..from] == frames[..from];
      StepIsStarting(frames[..n], from);
    } else {
      ModeIsAtWork(frames[..n]);
    }
  }

  function Spent(frames: seq<Stamped>): nat {
    if frames == [] then 0
    else Spent(frames[..|frames| - 1])
         + (if frames[|frames| - 1].frame.AssistantSaid? then frames[|frames| - 1].frame.cost else 0)
  }

  lemma {:induction false} SpentSnoc(frames: seq<Stamped>, from: nat)
    requires from < |frames|
    ensures Spent(frames[from..])
         == Spent(frames[..|frames| - 1][from..])
          + (if frames[|frames| - 1].frame.AssistantSaid? then frames[|frames| - 1].frame.cost else 0)
  {
    var n := |frames| - 1;
    assert frames[from..][..n - from] == frames[..n][from..];
  }

  /** The clock of a frame that begins work: its own, or the reader's where no turn was
      seen to start. */
  function Clock(f: Stamped): nat { if f.frame.UserSaid? || f.frame.TurnStarted? then f.ts else f.now }

  /** The cost shown is what replies cost since work last began, and at work the clock
      shown is that of its first frame. */
  lemma {:induction false} SpellShows(frames: seq<Stamped>, from: nat)
    requires SpellFrom(frames, from)
    ensures Fold(frames).cost == Spent(frames[from..])
    ensures AtWork(frames) ==> Fold(frames).since == Clock(frames[from])
    decreases |frames|
  {
    var n := |frames| - 1;
    var init := frames[..n];
    SpentSnoc(frames, from);
    ModeIsAtWork(init);
    AtWorkSnoc(frames);
    hide AtWork, SpellFrom;
    if from == n {
      assert init == frames[..from];
      assert Spent(init[from..]) == 0 by { assert init[from..] == []; }
    } else {
      SpellShorter(frames, from);
      SpellShows(init, from);
      if StartsWork(frames[n].frame) { SpellAtWork(frames, from); }
    }
  }

  // --- publishing ------------------------------------------------------------------------

  /** Equal in everything a reader sees besides the revision. */
  predicate SameView(a: Snapshot, b: Snapshot) { a.(rev := 0) == b.(rev := 0) }

  lemma {:induction false} RevIsNotRead(s: Snapshot, rev: nat, f: Stamped)
    ensures Apply(s.(rev := rev), f) == Apply(s, f).(rev := rev)
  {
    match f.frame
    case TurnFinished(stoppedBy) => assert Asked(s.(rev := rev), stoppedBy) == Asked(s, stoppedBy);
    case _ =>
  }

  datatype Change = Change(session: string, snapshot: Snapshot)

  function FramesOf(history: seq<(string, Stamped)>, session: string): seq<Stamped> {
    if history == [] then []
    else FramesOf(history[..|history| - 1], session)
         + (if history[|history| - 1].0 == session then [history[|history| - 1].1] else [])
  }

  function PublishedFor(published: seq<Change>, session: string): seq<Snapshot> {
    if published == [] then []
    else PublishedFor(published[..|published| - 1], session)
         + (if published[|published| - 1].session == session then [published[|published| - 1].snapshot] else [])
  }

  /** Consecutive publications differ in what they show, and count up by one. */
  ghost predicate Distinct(views: seq<Snapshot>) {
    && (forall i | 0 <= i < |views| :: views[i].rev == i + 1)
    && (forall i | 0 < i < |views| :: !SameView(views[i - 1], views[i]))
    && (views != [] ==> !SameView(views[0], IDLE))
  }

  /** The kept snapshot is the fold of the frames, the last publication shows it, and
      its revision counts the publications. */
  ghost predicate InStep(kept: Snapshot, frames: seq<Stamped>, views: seq<Snapshot>) {
    && SameView(kept, Fold(frames)) && kept.rev == |views| && Distinct(views)
    && if views == [] then SameView(kept, IDLE) else kept == views[|views| - 1]
  }

  lemma {:induction false} FoldIgnoresRev(s: Snapshot, t: Snapshot, f: Stamped)
    requires SameView(s, t)
    ensures SameView(Apply(s, f), Apply(t, f)) && Apply(s, f).rev == s.rev
  {
    RevIsNotRead(s, 0, f);
    RevIsNotRead(t, 0, f);
    RevIsNotRead(s, s.rev, f);
  }

  class Activity {
    var bySession: map<string, Snapshot>
    var published: seq<Change>
    ghost var history: seq<(string, Stamped)>

    ghost predicate Valid()
      reads this
    {
      forall session :: InStep(if session in bySession then bySession[session] else IDLE,
                               FramesOf(history, session), PublishedFor(published, session))
    }

    constructor ()
      ensures Valid() && history == [] && published == []
    {
      bySession, published, history := map[], [], [];
    }

    /** Folds a frame in and publishes the snapshot if anything it shows moved. */
    method NoteValue(session: string, f: Stamped)
      requires Valid()
      modifies this
      ensures Valid() && history == old(history) + [(session, f)]
      ensures session in bySession && bySession.Keys == old(bySession).Keys + {session}
      ensures forall other | other in old(bySession) && other != session :: bySession[other] == old(bySession)[other]
      ensures published == old(published)
           || published == old(published) + [Change(session, bySession[session])]
    {
      hide Apply, InStep, FramesOf, PublishedFor;
      var before := if session in bySession then bySession[session] else IDLE;
      var after := Apply(before, f);
      var changed := after != before;
      if changed { after := after.(rev := after.rev + 1); }
      NextInStep(before, f, after, FramesOf(history, session), PublishedFor(published, session));
      bySession := bySession[session := after];
      history := history + [(session, f)];
      FramesSnoc(old(history), session, f);
      if changed { published := published + [Change(session, after)]; }
      PublishedSnoc(old(published), Change(session, after));
    }
  }

  lemma {:induction false} FramesSnoc(history: seq<(string, Stamped)>, session: string, f: Stamped)
    ensures forall other :: FramesOf(history + [(session, f)], other)
                         == if other == session then FramesOf(history, other) + [f] else FramesOf(history, other)
  {
    assert (history + [(session, f)])[..|history|] == history;
  }

  lemma {:induction false} PublishedSnoc(published: seq<Change>, c: Change)
    ensures forall other :: PublishedFor(published + [c], other)
                         == if other == c.session then PublishedFor(published, other) + [c.snapshot]
                            else PublishedFor(published, other)
  {
    assert (published + [c])[..|published|] == published;
  }

  lemma {:induction false} NextInStep(before: Snapshot, f: Stamped, after: Snapshot, frames: seq<Stamped>, views: seq<Snapshot>)
    requires InStep(before, frames, views)
    requires var applied := Apply(before, f);
             after == if applied != before then applied.(rev := applied.rev + 1) else applied
    ensures InStep(after, frames + [f], if Apply(before, f) != before then views + [after] else views)
  {
    assert (frames + [f])[..|frames|] == frames;
    FoldIgnoresRev(before, Fold(frames), f);
    hide Apply;
    if Apply(before, f) != before { assert !SameView(before, after); }
  }
}
