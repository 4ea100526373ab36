/** Plans made on whatever list a turn holds.

    A turn plans on its own list, which may lack user text the log already has: a
    nudge said without a sequence of its own, a note another party logged.  What such
    a plan covers can be read off the list and the log before it is recorded. */
module TurnPlans {
  import opened EventLog
  import opened HiddenRanges
  import opened Projection
  import opened ProjectionLaws
  import opened Compacting
  import opened CompactionRuns

  // --- lists with sources ---------------------------------------------------------------

  /** A model or a tool said something at this sequence. */
  ghost predicate SaidAt(log: seq<Record>, at: nat) {
    exists r :: r in log && r.at == at && (r.event.AssistantMessage? || r.event.ToolResult?)
  }

  /** Behind the prompt, whatever is not a user message came from the log, in its order. */
  ghost predicate Sourced(log: seq<Record>, ms: seq<Message>, origins: seq<nat>) {
    && |ms| == |origins| >= 1
    && (forall k | 0 <= k < |origins| :: origins[k] <= LastAt(log))
    && (forall k | 1 <= k < |ms| && !ms[k].User? :: SaidAt(log, origins[k]))
    && forall j, k | 1 <= j < k < |ms| && !ms[j].User? && !ms[k].User? :: origins[j] < origins[k]
  }

  lemma {:induction false} SourcedGrows(log: seq<Record>, more: seq<Record>, ms: seq<Message>, origins: seq<nat>)
    requires Sourced(log, ms, origins) && LastAt(log) <= LastAt(log + more)
    ensures Sourced(log + more, ms, origins)
  {
    forall k | 1 <= k < |ms| && !ms[k].User? ensures SaidAt(log + more, origins[k]) {
      var r :| r in log && r.at == origins[k] && (r.event.AssistantMessage? || r.event.ToolResult?);
      assert r in log + more;
    }
  }

  lemma {:induction false} SourcedUser(log: seq<Record>, ms: seq<Message>, origins: seq<nat>, text: string, at: nat)
    requires Sourced(log, ms, origins) && at <= LastAt(log)
    ensures Sourced(log, ms + [User(text)], origins + [at])
  {
    hide SaidAt;
  }

  lemma {:induction false} SourcedSaid(log: seq<Record>, ms: seq<Message>, origins: seq<nat>, r: Record, m: Message)
    requires Sourced(log, ms, origins) && r.at > LastAt(log)
    requires m.User? || r.event.AssistantMessage? || r.event.ToolResult?
    ensures Sourced(log + [r], ms + [m], origins + [r.at])
  {
    SourcedGrows(log, [r], ms, origins);
    assert !m.User? ==> SaidAt(log + [r], r.at) by { assert r in log + [r]; }
    hide SaidAt;
  }

  /** The projection is such a list. */
  lemma {:induction false} ListedSourced(log: seq<Record>, hidden: Hidden, prompt: string)
    requires Chronological(log) && SpansBehind(log)
    ensures Sourced(log, ListedMessages(log, hidden, prompt), ListedOrigins(log, hidden))
  {
    ListedLists(log, hidden, prompt);
    ItemsFaithful(log, hidden);
    hide ListedMessages, ListedOrigins, Items;
    RenderedSourced(log, hidden, ListedMessages(log, hidden, prompt), ListedOrigins(log, hidden), Items(log, hidden));
    assert ListedOrigins(log, hidden)[0] == 0 by { FirstOrigin(log, hidden); }
  }

  lemma {:induction false} FirstOrigin(log: seq<Record>, hidden: Hidden)
    ensures |ListedOrigins(log, hidden)| >= 1 && ListedOrigins(log, hidden)[0] == 0
  {}

  lemma {:induction false} RenderedSourced(log: seq<Record>, hidden: Hidden, ms: seq<Message>, origins: seq<nat>, items: seq<Item>)
    requires Chronological(log) && SpansBehind(log) && Faithful(log, hidden, items) && Lists(ms, origins, items)
    ensures forall k | 1 <= k < |ms| :: origins[k] <= LastAt(log)
    ensures forall k | 1 <= k < |ms| && !ms[k].User? :: SaidAt(log, origins[k])
    ensures forall j, k | 1 <= j < k < |ms| && !ms[j].User? && !ms[k].User? :: origins[j] < origins[k]
  {
    forall k | 1 <= k < |ms| ensures origins[k] <= LastAt(log) && (!ms[k].User? ==> SaidAt(log, origins[k])) {
      ItemSourced(log, hidden, items, k - 1);
    }
    hide SaidAt, NotesPlaced, CoveredBy, Floor;
    forall j, k | 1 <= j < k < |ms| && !ms[j].User? && !ms[k].User? ensures origins[j] < origins[k] {
      assert items[j - 1].FromRecord? && items[k - 1].FromRecord?;
    }
  }

  lemma {:induction false} ItemSourced(log: seq<Record>, hidden: Hidden, items: seq<Item>, i: int)
    requires Chronological(log) && SpansBehind(log) && Faithful(log, hidden, items) && 0 <= i < |items|
    ensures items[i].Origin() <= LastAt(log)
    ensures !UserItem(items[i]) ==> SaidAt(log, items[i].Origin())
  {
    hide Floor, CoveredBy, NotesPlaced, OriginsRise, RecordsRise;
    ItemIn(items, i);
    LastAtBounds(log);
    hide Chronological;
    if items[i].FromNote? {
      var r :| r in log && Live(r, Floor(log)) && items[i].note == NoteOf(r.event.compaction);
      assert r.event.compaction.spans[0].from == items[i].Origin();
    } else {
      hide SpansBehind;
      assert items[i].record in log;
    }
  }

  // --- what a plan covers ------------------------------------------------------------------

  /** The spans whose jobs survive the hidden ranges. */
  function Unhidden(spans: seq<Round>, origins: seq<nat>, hidden: Hidden): seq<Round>
    requires Within(spans, 0, |origins| - 1)
  {
    if spans == [] then []
    else (if hidden.Intersects(origins[spans[0].start], origins[spans[0].end]) then [] else [spans[0]])
         + Unhidden(spans[1..], origins, hidden)
  }

  function Picked(ms: seq<Message>, origins: seq<nat>, tokens: nat, policy: Policy, hidden: Hidden): seq<Round>
    requires |origins| == |ms|
  { Unhidden(PlanSpans(ms, tokens, policy), origins, hidden) }

  lemma {:induction false} UnhiddenHas(spans: seq<Round>, origins: seq<nat>, hidden: Hidden, s: Round)
    requires Within(spans, 0, |origins| - 1)
    ensures s in Unhidden(spans, origins, hidden) ==>
              s in spans && !hidden.Intersects(origins[s.start], origins[s.end])
  {
    hide Hidden.Intersects;
    if spans != [] { UnhiddenHas(spans[1..], origins, hidden, s); }
  }

  lemma {:induction false} UnhiddenJobs(spans: seq<Round>, origins: seq<nat>, hidden: Hidden)
    requires Within(spans, 0, |origins| - 1)
    ensures Within(Unhidden(spans, origins, hidden), 0, |origins| - 1)
    ensures DropHiddenJobs(JobsOf(spans, origins), hidden) == JobsOf(Unhidden(spans, origins, hidden), origins)
  {
    hide Hidden.Intersects;
    if spans != [] {
      var rest := Unhidden(spans[1..], origins, hidden);
      UnhiddenJobs(spans[1..], origins, hidden);
      assert JobsOf(spans, origins)[1..] == JobsOf(spans[1..], origins);
      assert JobsOf([spans[0]] + rest, origins) == [JobsOf(spans, origins)[0]] + JobsOf(rest, origins);
      assert [] + rest == rest && [] + JobsOf(rest, origins) == JobsOf(rest, origins);
    }
  }

  /** A job's span: messages nobody said as a user, none of it hidden. */
  ghost predicate SpanFor(ms: seq<Message>, origins: seq<nat>, hidden: Hidden, s: Round, job: Job) {
    && |origins| == |ms| && 1 <= s.start <= s.end < |ms|
    && (forall k | s.start <= k <= s.end :: !ms[k].User?)
    && job == Job(origins[s.start], origins[s.end], s.end - s.start + 1)
    && !hidden.Intersects(job.first, job.last)
  }

  lemma {:induction false} PickedSpans(ms: seq<Message>, origins: seq<nat>, tokens: nat, policy: Policy, hidden: Hidden)
    requires PlanJobs(ms, origins, tokens, policy, hidden).Some?
    ensures |origins| == |ms|
    ensures |Picked(ms, origins, tokens, policy, hidden)| == |PlanJobs(ms, origins, tokens, policy, hidden).value|
    ensures forall x | 0 <= x < |Picked(ms, origins, tokens, policy, hidden)| ::
              SpanFor(ms, origins, hidden, Picked(ms, origins, tokens, policy, hidden)[x],
                      PlanJobs(ms, origins, tokens, policy, hidden).value[x])
  {
    var spans, picked := PlanSpans(ms, tokens, policy), Picked(ms, origins, tokens, policy, hidden);
    PlanSpansGood(ms, tokens, policy);
    UnhiddenJobs(spans, origins, hidden);
    var jobs := PlanJobs(ms, origins, tokens, policy, hidden).value;
    hide PlanSpans, Unhidden, DropHiddenJobs, Hidden.Intersects;
    assert jobs == JobsOf(picked, origins);
    forall x | 0 <= x < |picked| ensures SpanFor(ms, origins, hidden, picked[x], jobs[x]) {
      UnhiddenHas(spans, origins, hidden, picked[x]);
      assert picked[x] in picked;
      var y :| 0 <= y < |spans| && spans[y] == picked[x];
    }
  }

  /** Two neighbours of a span stand on either side of a sequence. */
  ghost predicate Straddles(origins: seq<nat>, s: Round, at: nat) {
    exists k :: 0 <= k < |origins| - 1 && s.start <= k < s.end && origins[k] < at < origins[k + 1]
  }

  lemma {:induction false} UserNotSaid(log: seq<Record>, r: Record, at: nat)
    requires Chronological(log) && r in log && r.event.UserKind() && SaidAt(log, at)
    ensures r.at != at
  {
    var q :| q in log && q.at == at && (q.event.AssistantMessage? || q.event.ToolResult?);
    if q.at == r.at { SameAtSameRecord(log, q, r); }
  }

  lemma {:induction false} Neighbours(origins: seq<nat>, s: Round, end: nat, at: nat)
    requires s.start <= end <= s.end < |origins| && origins[s.start] < at < origins[end]
    requires forall k | s.start <= k <= s.end :: origins[k] != at
    ensures Straddles(origins, s, at)
    decreases end
  {
    if origins[end - 1] < at {
      assert origins[end - 1] < at < origins[end - 1 + 1];
    } else {
      Neighbours(origins, s, end - 1, at);
    }
  }

  /** A planned job covers a user-kind record exactly when two neighbours of its span
      stand on either side of it. */
  lemma {:induction false} JobCoversIff(log: seq<Record>, ms: seq<Message>, origins: seq<nat>, hidden: Hidden,
                                        s: Round, job: Job, r: Record)
    requires Chronological(log) && Sourced(log, ms, origins) && SpanFor(ms, origins, hidden, s, job)
    requires r in log && r.event.UserKind()
    ensures job.first <= r.at <= job.last <==> Straddles(origins, s, r.at)
  {
    hide SaidAt, Hidden.Intersects, Chronological, Straddles;
    forall k | s.start <= k <= s.end ensures origins[k] != r.at { UserNotSaid(log, r, origins[k]); }
    if job.first <= r.at <= job.last { Neighbours(origins, s, s.end, r.at); }
    if Straddles(origins, s, r.at) { StraddledInside(log, ms, origins, s, r.at); }
  }

  lemma {:induction false} StraddledInside(log: seq<Record>, ms: seq<Message>, origins: seq<nat>, s: Round, at: nat)
    requires Sourced(log, ms, origins) && Straddles(origins, s, at) && 1 <= s.start <= s.end < |ms|
    requires forall i | s.start <= i <= s.end :: !ms[i].User?
    ensures |origins| == |ms| && origins[s.start] < at < origins[s.end]
  {
    hide Sourced;
    SourcedLength(log, ms, origins);
    var k := StraddledBetween(origins, s, at);
    hide Straddles;
    SpanRises(log, ms, origins, s, s.start, k);
    SpanRises(log, ms, origins, s, k + 1, s.end);
  }

  lemma {:induction false} SourcedLength(log: seq<Record>, ms: seq<Message>, origins: seq<nat>)
    requires Sourced(log, ms, origins)
    ensures |origins| == |ms|
  {
    hide SaidAt, LastAt;
  }

  lemma {:induction false} StraddledBetween(origins: seq<nat>, s: Round, at: nat) returns (k: nat)
    requires Straddles(origins, s, at)
    ensures k < |origins| - 1 && s.start <= k < s.end && origins[k] < at < origins[k + 1]
  {
    k :| 0 <= k < |origins| - 1 && s.start <= k < s.end && origins[k] < at < origins[k + 1];
  }

  lemma {:induction false} SpanRises(log: seq<Record>, ms: seq<Message>, origins: seq<nat>, s: Round, j: nat, k: nat)
    requires Sourced(log, ms, origins) && 1 <= s.start <= j <= k <= s.end < |ms|
    requires forall i | s.start <= i <= s.end :: !ms[i].User?
    ensures origins[j] <= origins[k]
  {}

  // --- a guard -------------------------------------------------------------------------------

  /** A user message stands at a sequence, among what was said before and after it. */
  ghost predicate StandsAt(ms: seq<Message>, origins: seq<nat>, at: nat) {
    && |origins| == |ms|
    && exists m :: 1 <= m < |ms| && ms[m].User? && origins[m] == at
         && (forall k | 1 <= k < m && !ms[k].User? :: origins[k] < at)
         && (forall k | m < k < |ms| && !ms[k].User? :: at < origins[k])
  }

  /** Every user-kind record that is not hidden is on the list in its place, or stands
      outside everything said there. */
  ghost predicate NothingMissing(log: seq<Record>, hidden: Hidden, ms: seq<Message>, origins: seq<nat>) {
    |origins| == |ms| &&
    forall r :: r in log && r.event.UserKind() && !hidden.Contains(r.at) ==>
      || StandsAt(ms, origins, r.at)
      || (forall k | 1 <= k < |ms| && !ms[k].User? :: origins[k] < r.at)
      || (forall k | 1 <= k < |ms| && !ms[k].User? :: r.at < origins[k])
  }

  /** A list that misses nothing is planned on without covering user text. */
  lemma {:induction false} NothingMissingSpares(log: seq<Record>, ms: seq<Message>, origins: seq<nat>, hidden: Hidden,
                                                s: Round, job: Job)
    requires Chronological(log) && Sourced(log, ms, origins) && SpanFor(ms, origins, hidden, s, job)
    requires NothingMissing(log, hidden, ms, origins)
    ensures Spares(log, job.first, job.last)
  {
    forall r | r in log && r.event.UserKind() ensures !(job.first <= r.at <= job.last) {
      JobCoversIff(log, ms, origins, hidden, s, job, r);
      if !hidden.Contains(r.at) {
        NotStraddled(ms, origins, s, r.at);
      } else {
        HiddenOutside(hidden, job, r.at);
      }
    }
  }

  lemma {:induction false} HiddenOutside(hidden: Hidden, job: Job, at: nat)
    requires hidden.Contains(at) && !hidden.Intersects(job.first, job.last)
    ensures !(job.first <= at <= job.last)
  {}

  lemma {:induction false} NotStraddled(ms: seq<Message>, origins: seq<nat>, s: Round, at: nat)
    requires |origins| == |ms| && 1 <= s.start <= s.end < |ms| && forall k | s.start <= k <= s.end :: !ms[k].User?
    requires StandsAt(ms, origins, at)
          || (forall k | 1 <= k < |ms| && !ms[k].User? :: origins[k] < at)
          || (forall k | 1 <= k < |ms| && !ms[k].User? :: at < origins[k])
    ensures !Straddles(origins, s, at)
  {
    forall k | 0 <= k < |origins| - 1 && s.start <= k < s.end ensures !(origins[k] < at < origins[k + 1]) {
      assert !ms[k].User? && !ms[k + 1].User?;
    }
  }

  /** The projection of a log whose spans spare user text misses nothing. */
  lemma {:induction false} ListedMissesNothing(log: seq<Record>, hidden: Hidden, ms: seq<Message>, origins: seq<nat>, items: seq<Item>)
    requires Chronological(log) && SpansSpare(log) && Faithful(log, hidden, items) && Lists(ms, origins, items)
    ensures NothingMissing(log, hidden, ms, origins)
  {
    forall k | 1 <= k < |ms| && !ms[k].User? ensures Floor(log) < origins[k] { ItemIn(items, k - 1); }
    hide Floor, StandsAt, SpansSpare, Faithful, Lists;
    forall r | r in log && r.event.UserKind() && !hidden.Contains(r.at) && r.at > Floor(log)
      ensures StandsAt(ms, origins, r.at) {
      UserStands(log, hidden, ms, origins, items, r);
    }
    assert |origins| == |ms| by { ListsLength(ms, origins, items); }
  }

  lemma {:induction false} ListsLength(ms: seq<Message>, origins: seq<nat>, items: seq<Item>)
    requires Lists(ms, origins, items)
    ensures |ms| == |origins| == |items| + 1
  {}

  lemma {:induction false} UserStands(log: seq<Record>, hidden: Hidden, ms: seq<Message>, origins: seq<nat>, items: seq<Item>, r: Record)
    requires Chronological(log) && SpansSpare(log) && Faithful(log, hidden, items) && Lists(ms, origins, items)
    requires r in log && r.event.UserKind() && !hidden.Contains(r.at) && r.at > Floor(log)
    ensures StandsAt(ms, origins, r.at)
  {
    NotCoveredUser(log, r);
    assert FromRecord(r) in items;
    var m :| 0 <= m < |items| && items[m] == FromRecord(r);
    hide Floor, CoveredBy, NotesPlaced, OriginsRise, SpansSpare;
    assert ms[m + 1].User? && origins[m + 1] == r.at;
    forall k | 1 <= k < m + 1 && !ms[k].User? ensures origins[k] < r.at {
      assert items[k - 1].FromRecord? && items[k - 1].record.at < items[m].record.at;
    }
    forall k | m + 1 < k < |ms| && !ms[k].User? ensures r.at < origins[k] {
      assert items[k - 1].FromRecord? && items[m].record.at < items[k - 1].record.at;
    }
  }

  // --- over every run --------------------------------------------------------------------------

  /** A log, the jobs of a plan under way, which of them straddled user text when they
      were planned, and whether such a job was ever recorded. */
  datatype Plans = Plans(log: seq<Record>, jobs: seq<Job>, torn: seq<bool>, bad: bool)

  datatype Move =
    | Arrive(record: Record)
    | PlanOn(ms: seq<Message>, origins: seq<nat>, tokens: nat, policy: Policy, hidden: Hidden)
    | Keep(kept: seq<nat>, record: Record)
    | Abandon

  ghost predicate Torn(log: seq<Record>, origins: seq<nat>, s: Round) {
    exists r :: r in log && r.event.UserKind() && Straddles(origins, s, r.at)
  }

  ghost predicate Moves(p: Plans, m: Move, p': Plans) {
    match m
    case Arrive(r) => r.at > LastAt(p.log) && !r.event.ContextCompacted? && p' == p.(log := p.log + [r])
    case PlanOn(ms, origins, tokens, policy, hidden) =>
      && Sourced(p.log, ms, origins) && PlanJobs(ms, origins, tokens, policy, hidden).Some?
      && p'.log == p.log && p'.bad == p.bad && p'.jobs == PlanJobs(ms, origins, tokens, policy, hidden).value
      && |p'.torn| == |p'.jobs| == |Picked(ms, origins, tokens, policy, hidden)|
      && forall x | 0 <= x < |p'.torn| ::
           p'.torn[x] <==> Torn(p.log, origins, Picked(ms, origins, tokens, policy, hidden)[x])
    case Keep(kept, r) =>
      && Indices(kept, |p.jobs|) && |p.torn| == |p.jobs|
      && r.at > LastAt(p.log) && r.event.ContextCompacted? && Records(r.event.compaction.spans, p.jobs, kept)
      && p' == Plans(p.log + [r], [], [], p.bad || exists i :: 0 <= i < |kept| && p.torn[kept[i]])
    case Abandon => p' == p.(jobs := [], torn := [])
  }

  /** No recorded span holds anything a user said. */
  ghost predicate AllSpare(log: seq<Record>) {
    forall r, k :: r in log && r.event.ContextCompacted? && 0 <= k < |r.event.compaction.spans| ==>
      Spares(log, r.event.compaction.spans[k].from, r.event.compaction.spans[k].through)
  }

  ghost predicate JobsKnown(log: seq<Record>, jobs: seq<Job>, torn: seq<bool>) {
    && |torn| == |jobs|
    && forall x | 0 <= x < |jobs| ::
         0 < jobs[x].first <= jobs[x].last <= LastAt(log) && (torn[x] <==> !Spares(log, jobs[x].first, jobs[x].last))
  }

  ghost predicate Known(p: Plans) {
    && Chronological(p.log) && SpansBehind(p.log) && JobsKnown(p.log, p.jobs, p.torn)
    && (AllSpare(p.log) <==> !p.bad)
  }

  lemma {:induction false} SparesAfter(log: seq<Record>, r: Record, from: nat, through: nat)
    requires through < r.at
    ensures Spares(log + [r], from, through) <==> Spares(log, from, through)
  {
    if Spares(log + [r], from, through) {
      forall q | q in log && q.event.UserKind() ensures !(from <= q.at <= through) { assert q in log + [r]; }
    }
  }

  lemma {:induction false} SpansBehindAfter(log: seq<Record>, r: Record)
    requires SpansBehind(log)
    requires r.event.ContextCompacted? ==> forall k | 0 <= k < |r.event.compaction.spans| ::
               0 < r.event.compaction.spans[k].from <= r.event.compaction.spans[k].through < r.at
    ensures SpansBehind(log + [r])
  {}

  lemma {:induction false} JobsKnownAfter(log: seq<Record>, jobs: seq<Job>, torn: seq<bool>, r: Record)
    requires JobsKnown(log, jobs, torn) && r.at > LastAt(log)
    ensures JobsKnown(log + [r], jobs, torn)
  {
    forall x | 0 <= x < |jobs| ensures torn[x] <==> !Spares(log + [r], jobs[x].first, jobs[x].last) {
      SparesAfter(log, r, jobs[x].first, jobs[x].last);
    }
  }

  lemma {:induction false} AllSpareAfter(log: seq<Record>, r: Record)
    requires Chronological(log) && SpansBehind(log) && r.at > LastAt(log)
    requires r.event.ContextCompacted? ==> forall k | 0 <= k < |r.event.compaction.spans| ::
               r.event.compaction.spans[k].through <= LastAt(log)
    ensures AllSpare(log + [r]) <==>
              && AllSpare(log)
              && (r.event.ContextCompacted? ==> forall k | 0 <= k < |r.event.compaction.spans| ::
                    Spares(log, r.event.compaction.spans[k].from, r.event.compaction.spans[k].through))
  {
    LastAtBounds(log);
    forall q, k | q in log + [r] && q.event.ContextCompacted? && 0 <= k < |q.event.compaction.spans|
      ensures Spares(log + [r], q.event.compaction.spans[k].from, q.event.compaction.spans[k].through)
         <==> Spares(log, q.event.compaction.spans[k].from, q.event.compaction.spans[k].through) {
      SparesAfter(log, r, q.event.compaction.spans[k].from, q.event.compaction.spans[k].through);
    }
    hide Spares;
    assert r in log + [r] && forall q :: q in log ==> q in log + [r];
  }

  lemma {:induction false} PlanKnown(log: seq<Record>, ms: seq<Message>, origins: seq<nat>, tokens: nat, policy: Policy,
                                     hidden: Hidden, torn: seq<bool>)
    requires Chronological(log) && Sourced(log, ms, origins) && PlanJobs(ms, origins, tokens, policy, hidden).Some?
    requires |torn| == |PlanJobs(ms, origins, tokens, policy, hidden).value| == |Picked(ms, origins, tokens, policy, hidden)|
    requires forall x | 0 <= x < |torn| :: torn[x] <==> Torn(log, origins, Picked(ms, origins, tokens, policy, hidden)[x])
    ensures JobsKnown(log, PlanJobs(ms, origins, tokens, policy, hidden).value, torn)
  {
    var jobs, picked := PlanJobs(ms, origins, tokens, policy, hidden).value, Picked(ms, origins, tokens, policy, hidden);
    PickedSpans(ms, origins, tokens, policy, hidden);
    hide PlanJobs, Picked, SpanFor, Torn;
    forall x | 0 <= x < |jobs|
      ensures 0 < jobs[x].first <= jobs[x].last <= LastAt(log) && (torn[x] <==> !Spares(log, jobs[x].first, jobs[x].last)) {
      JobKnown(log, ms, origins, hidden, picked[x], jobs[x]);
    }
  }

  lemma {:induction false} JobKnown(log: seq<Record>, ms: seq<Message>, origins: seq<nat>, hidden: Hidden, s: Round, job: Job)
    requires Chronological(log) && Sourced(log, ms, origins) && SpanFor(ms, origins, hidden, s, job)
    ensures 0 < job.first <= job.last <= LastAt(log)
    ensures Torn(log, origins, s) <==> !Spares(log, job.first, job.last)
  {
    LastAtBounds(log);
    SpanRises(log, ms, origins, s, s.start, s.end);
    assert SaidAt(log, origins[s.start]);
    forall r | r in log && r.event.UserKind() ensures job.first <= r.at <= job.last <==> Straddles(origins, s, r.at) {
      JobCoversIff(log, ms, origins, hidden, s, job, r);
    }
    hide Straddles, Sourced, SpanFor;
  }

  lemma {:induction false} MoveKeepsKnown(p: Plans, m: Move, p': Plans)
    requires Known(p) && Moves(p, m, p')
    ensures Known(p')
  {
    match m
    case Arrive(r) =>
      ChronologicalAppend(p.log, r);
      SpansBehindAfter(p.log, r);
      JobsKnownAfter(p.log, p.jobs, p.torn, r);
      AllSpareAfter(p.log, r);
    case PlanOn(ms, origins, tokens, policy, hidden) =>
      PlanKnown(p.log, ms, origins, tokens, policy, hidden, p'.torn);
    case Keep(kept, r) =>
      ChronologicalAppend(p.log, r);
      var spans := r.event.compaction.spans;
      forall k | 0 <= k < |spans|
        ensures 0 < spans[k].from <= spans[k].through <= LastAt(p.log)
        ensures Spares(p.log, spans[k].from, spans[k].through) <==> !p.torn[kept[k]] {}
      SpansBehindAfter(p.log, r);
      AllSpareAfter(p.log, r);
    case Abandon =>
  }

  ghost predicate PlanRun(states: seq<Plans>, moves: seq<Move>) {
    && |states| == |moves| + 1
    && states[0] == Plans([], [], [], false)
    && forall i | 0 <= i < |moves| :: Moves(states[i], moves[i], states[i + 1])
  }

  /** Over every run, whatever sourced lists its plans are made on and whichever of
      their summaries fail: some covered interval holds something a user said exactly
      when a job was recorded whose span straddled user text when it was planned. */
  lemma {:induction false} UserTextIsCoveredIff(states: seq<Plans>, moves: seq<Move>)
    requires PlanRun(states, moves)
    ensures AllSpare(states[|moves|].log) <==> !states[|moves|].bad
    ensures Known(states[|moves|])
    decreases |moves|
  {
    if moves != [] {
      var n := |moves| - 1;
      assert PlanRun(states[..n + 1], moves[..n]);
      UserTextIsCoveredIff(states[..n + 1], moves[..n]);
      MoveKeepsKnown(states[n], moves[n], states[n + 1]);
    }
  }

  /** A plan made on a list that misses nothing tears no user text. */
  lemma {:induction false} NothingTorn(log: seq<Record>, ms: seq<Message>, origins: seq<nat>, tokens: nat, policy: Policy,
                                       hidden: Hidden, x: int)
    requires Chronological(log) && Sourced(log, ms, origins) && NothingMissing(log, hidden, ms, origins)
    requires PlanJobs(ms, origins, tokens, policy, hidden).Some?
    requires 0 <= x < |Picked(ms, origins, tokens, policy, hidden)|
    ensures !Torn(log, origins, Picked(ms, origins, tokens, policy, hidden)[x])
  {
    var s, job := Picked(ms, origins, tokens, policy, hidden)[x], PlanJobs(ms, origins, tokens, policy, hidden).value;
    PickedSpans(ms, origins, tokens, policy, hidden);
    hide PlanJobs, Picked, SpanFor, Torn, NothingMissing, Sourced;
    NothingMissingSpares(log, ms, origins, hidden, s, job[x]);
    JobKnown(log, ms, origins, hidden, s, job[x]);
  }

  ghost predicate Guarded(p: Plans, m: Move) {
    m.PlanOn? ==> NothingMissing(p.log, m.hidden, m.ms, m.origins)
  }

  /** So while plans are made on lists that miss nothing, no covered interval ever holds
      something a user said. */
  lemma {:induction false} GuardedRunsSpareUserText(states: seq<Plans>, moves: seq<Move>)
    requires PlanRun(states, moves) && forall i | 0 <= i < |moves| :: Guarded(states[i], moves[i])
    ensures AllSpare(states[|moves|].log) && true !in states[|moves|].torn
    decreases |moves|
  {
    UserTextIsCoveredIff(states, moves);
    NeverBad(states, moves);
  }

  lemma {:induction false} NeverBad(states: seq<Plans>, moves: seq<Move>)
    requires PlanRun(states, moves) && forall i | 0 <= i < |moves| :: Guarded(states[i], moves[i])
    ensures !states[|moves|].bad && true !in states[|moves|].torn
    decreases |moves|
  {
    if moves != [] {
      var n := |moves| - 1;
      assert PlanRun(states[..n + 1], moves[..n]);
      NeverBad(states[..n + 1], moves[..n]);
      UserTextIsCoveredIff(states[..n + 1], moves[..n]);
      MoveStaysGood(states[n], moves[n], states[n + 1]);
    }
  }

  lemma {:induction false} MoveStaysGood(p: Plans, m: Move, p': Plans)
    requires Known(p) && Moves(p, m, p') && Guarded(p, m) && !p.bad && true !in p.torn
    ensures !p'.bad && true !in p'.torn
  {
    match m
    case Arrive(r) =>
    case PlanOn(ms, origins, tokens, policy, hidden) =>
      forall x | 0 <= x < |p'.torn| ensures !p'.torn[x] {
        NothingTorn(p.log, ms, origins, tokens, policy, hidden, x);
      }
    case Keep(kept, r) =>
      forall i | 0 <= i < |kept| ensures !p.torn[kept[i]] { assert p.torn[kept[i]] in p.torn; }
    case Abandon =>
  }
}
