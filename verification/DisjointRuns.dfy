/** While the hidden ranges stay put, no two recorded spans ever overlap: what one
    compaction stands for is never summarized again. */
module DisjointRuns {
  import opened EventLog
  import opened HiddenRanges
  import opened Projection
  import opened ProjectionLaws
  import opened Compacting
  import opened CompactionRuns

  predicate Overlap(a: SeqSpan, b: SeqSpan) { a.from <= b.through && b.from <= a.through }

  ghost predicate Recorded(log: seq<Record>, r: Record, k: int) {
    r in log && r.event.ContextCompacted? && 0 <= k < |r.event.compaction.spans|
  }

  function SpanAt(r: Record, k: int): SeqSpan
    requires r.event.ContextCompacted? && 0 <= k < |r.event.compaction.spans|
  { r.event.compaction.spans[k] }

  function SpanOf(j: Job): SeqSpan { SeqSpan(j.first, j.last) }

  ghost predicate Apart(log: seq<Record>) {
    forall r, k, r', k' :: Recorded(log, r, k) && Recorded(log, r', k') && (r != r' || k != k') ==>
      !Overlap(SpanAt(r, k), SpanAt(r', k'))
  }

  ghost predicate JobsApart(log: seq<Record>, jobs: seq<Job>) {
    forall x, r, k :: 0 <= x < |jobs| && Recorded(log, r, k) ==> !Overlap(SpanOf(jobs[x]), SpanAt(r, k))
  }

  // --- separators -------------------------------------------------------------------

  /** A sequence at which every later projection puts a user-role message. */
  ghost predicate SepPoint(log: seq<Record>, hidden: Hidden, u: nat) {
    || (exists r :: r in log && r.event.UserKind() && r.at == u && !hidden.Contains(u))
    || exists r :: r in log && r.event.ContextCompacted? && r.event.compaction.spans != []
                && r.event.compaction.spans[0].from == u
  }

  /** Nothing a model or a tool said between `u` and `a` can be shown any more. */
  ghost predicate Silent(log: seq<Record>, hidden: Hidden, u: nat, a: nat) {
    forall r :: r in log && r.event.Bearing() && !r.event.UserKind() && u <= r.at < a ==>
      r.at <= Floor(log) || hidden.Contains(r.at) || CoveredBy(log, 0, r.at)
  }

  ghost predicate Separated(log: seq<Record>, hidden: Hidden, a: nat) {
    exists u: nat :: u <= a && SepPoint(log, hidden, u) && Silent(log, hidden, u, a)
  }

  lemma {:induction false} FloorGrows(log: seq<Record>, r: Record)
    requires Chronological(log) && r.at > LastAt(log)
    ensures Floor(log) <= Floor(log + [r])
  {
    ChronologicalAppend(log, r);
    FloorIs(log);
    FloorIs(log + [r]);
  }

  lemma {:induction false} SeparatedAppend(log: seq<Record>, hidden: Hidden, a: nat, r: Record)
    requires Chronological(log) && r.at > LastAt(log) && a <= LastAt(log)
    requires Separated(log, hidden, a)
    ensures Separated(log + [r], hidden, a)
  {
    var u: nat :| u <= a && SepPoint(log, hidden, u) && Silent(log, hidden, u, a);
    FloorGrows(log, r);
    assert SepPoint(log + [r], hidden, u) by {
      assert forall q :: q in log ==> q in log + [r];
    }
    forall q | q in log + [r] && q.event.Bearing() && !q.event.UserKind() && u <= q.at < a
      ensures q.at <= Floor(log + [r]) || hidden.Contains(q.at) || CoveredBy(log + [r], 0, q.at) {
      assert q in log;
      if CoveredBy(log, 0, q.at) { CoverageGrows(log, r, q.at); }
    }
    assert Silent(log + [r], hidden, u, a);
  }

  // --- a plan keeps apart ---------------------------------------------------------------

  /** What stands before a later job separates it. */
  lemma {:induction false} LaterJobSeparated(log: seq<Record>, hidden: Hidden, items: seq<Item>, i: int, j: int, job: Job)
    requires Chronological(log) && SpansSpare(log) && Faithful(log, hidden, items)
    requires CoversItems(items, i, j, job) && UserBefore(items, i)
    ensures Separated(log, hidden, job.first)
  {
    UserItemSeparates(log, hidden, items, i - 1);
    var u := items[i - 1].Origin();
    assert u <= job.first;
    NothingSaidBetween(log, hidden, items, i, j, job);
    hide SepPoint, Silent, Faithful;
  }

  lemma {:induction false} UserItemSeparates(log: seq<Record>, hidden: Hidden, items: seq<Item>, m: int)
    requires Faithful(log, hidden, items) && 0 <= m < |items| && UserItem(items[m])
    ensures SepPoint(log, hidden, items[m].Origin())
  {
    hide Floor, CoveredBy, NotesPlaced, OriginsRise, RecordsRise, AllBearing;
    ItemIn(items, m);
    if items[m].FromNote? {
      var r :| r in log && Live(r, Floor(log)) && items[m].note == NoteOf(r.event.compaction);
      assert r.event.compaction.spans[0].from == items[m].Origin();
    } else {
      assert items[m].record in log;
    }
  }

  lemma {:induction false} NothingSaidBetween(log: seq<Record>, hidden: Hidden, items: seq<Item>, i: int, j: int, job: Job)
    requires Chronological(log) && SpansSpare(log) && Faithful(log, hidden, items)
    requires CoversItems(items, i, j, job) && UserBefore(items, i)
    ensures Silent(log, hidden, items[i - 1].Origin(), job.first)
  {
    JobEnds(log, hidden, items, i, j, job);
    var u := items[i - 1].Origin();
    forall r | r in log && r.event.Bearing() && !r.event.UserKind() && u <= r.at < job.first
      ensures r.at <= Floor(log) || hidden.Contains(r.at) || CoveredBy(log, 0, r.at) {
      if r.at > Floor(log) && !hidden.Contains(r.at) && !CoveredBy(log, 0, r.at) {
        CoverageAboveFloor(log, r.at);
        NothingShownBetween(log, hidden, items, i, r);
        assert false;
      }
    }
  }

  /** No shown model record lies between an item and the user item right before it. */
  lemma {:induction false} NothingShownBetween(log: seq<Record>, hidden: Hidden, items: seq<Item>, i: int, r: Record)
    requires Chronological(log) && Faithful(log, hidden, items)
    requires UserBefore(items, i) && i < |items| && items[i].FromRecord?
    requires FromRecord(r) in items && !r.event.UserKind()
    ensures !(items[i - 1].Origin() <= r.at < items[i].record.at)
  {
    var m :| 0 <= m < |items| && items[m] == FromRecord(r);
    assert m != i - 1;
    if m < i - 1 {
      BeforeUserItem(log, hidden, items, m, i - 1);
    } else {
      assert m >= i;
      assert items[m].Origin() >= items[i].Origin();
    }
  }

  /** A separator shows as a user item wherever its sequence is above the floor. */
  lemma {:induction false} SepPointShows(log: seq<Record>, hidden: Hidden, items: seq<Item>, u: nat) returns (m: int)
    requires Chronological(log) && SpansSpare(log) && Faithful(log, hidden, items)
    requires SepPoint(log, hidden, u) && u > Floor(log)
    ensures 0 <= m < |items| && UserItem(items[m]) && items[m].Origin() == u
  {
    hide Floor, NotesPlaced, OriginsRise, RecordsRise, AllBearing, Spares;
    if r :| r in log && r.event.UserKind() && r.at == u && !hidden.Contains(u) {
      NotCoveredUser(log, r);
      assert FromRecord(r) in items;
      m :| 0 <= m < |items| && items[m] == FromRecord(r);
    } else {
      var r :| r in log && r.event.ContextCompacted? && r.event.compaction.spans != []
            && r.event.compaction.spans[0].from == u;
      assert u < r.at;
      assert Live(r, Floor(log));
      assert FromNote(NoteOf(r.event.compaction)) in items;
      m :| 0 <= m < |items| && items[m] == FromNote(NoteOf(r.event.compaction));
    }
  }

  /** A new job cannot straddle a recorded span: the span's separator, a user
      message, would stand inside the job. */
  lemma {:induction false} NewJobApart(log: seq<Record>, hidden: Hidden, items: seq<Item>, i: int, j: int, job: Job, r: Record, k: int)
    requires Chronological(log) && SpansSpare(log) && Faithful(log, hidden, items)
    requires CoversItems(items, i, j, job) && Recorded(log, r, k)
    requires Separated(log, hidden, SpanAt(r, k).from)
    ensures !Overlap(SpanOf(job), SpanAt(r, k))
  {
    JobEnds(log, hidden, items, i, j, job);
    var s := SpanAt(r, k);
    if Overlap(SpanOf(job), s) {
      EndNotInside(log, r, k, job.first);
      EndNotInside(log, r, k, job.last);
      assert job.first < s.from <= s.through < job.last;
      var u: nat :| u <= s.from && SepPoint(log, hidden, u) && Silent(log, hidden, u, s.from);
      FirstNotSilent(log, hidden, items, i, job, u, s.from);
      var m := SepPointShows(log, hidden, items, u);
      assert false;
    }
  }

  lemma {:induction false} EndNotInside(log: seq<Record>, r: Record, k: int, at: nat)
    requires SpansSpare(log) && Recorded(log, r, k)
    requires at > Floor(log) && !CoveredBy(log, Floor(log), at)
    ensures !SpanAt(r, k).Has(at)
  {
    if SpanAt(r, k).Has(at) {
      assert r.event.compaction.spans[k].Has(at);
      assert Live(r, Floor(log));
    }
  }

  lemma {:induction false} FirstNotSilent(log: seq<Record>, hidden: Hidden, items: seq<Item>, i: int, job: Job, u: nat, a: nat)
    requires Chronological(log) && SpansSpare(log) && Faithful(log, hidden, items)
    requires 0 <= i < |items| && !UserItem(items[i]) && job.first == items[i].Origin() < a
    requires Silent(log, hidden, u, a)
    ensures job.first < u
  {
    ItemIn(items, i);
    var p := items[i].record;
    if u <= p.at {
      assert p in log && p.event.Bearing() && !p.event.UserKind();
      CoverageAboveFloor(log, p.at);
      assert false;
    }
  }

  // --- the run --------------------------------------------------------------------------

  ghost predicate Disjoint(s: State, hidden: Hidden) {
    && Safe(s)
    && Apart(s.log) && JobsApart(s.log, s.jobs)
    && (forall r, k :: Recorded(s.log, r, k) ==> Separated(s.log, hidden, SpanAt(r, k).from))
    && forall x | 1 <= x < |s.jobs| :: Separated(s.log, hidden, s.jobs[x].first)
  }

  lemma {:induction false} AppendKeepsDisjoint(s: State, hidden: Hidden, r: Record)
    requires Disjoint(s, hidden) && r.at > LastAt(s.log) && !r.event.ContextCompacted?
    ensures Disjoint(State(s.log + [r], s.jobs), hidden)
  {
    var log := s.log + [r];
    AppendKeepsSafe(s.log, s.jobs, r);
    LastAtBounds(s.log);
    assert forall q, k :: Recorded(log, q, k) ==> Recorded(s.log, q, k);
    forall q, k | Recorded(log, q, k) ensures Separated(log, hidden, SpanAt(q, k).from) {
      SeparatedAppend(s.log, hidden, SpanAt(q, k).from, r);
    }
    forall x | 1 <= x < |s.jobs| ensures Separated(log, hidden, s.jobs[x].first) {
      SeparatedAppend(s.log, hidden, s.jobs[x].first, r);
    }
  }

  lemma {:induction false} CommitKeepsDisjoint(s: State, hidden: Hidden, kept: seq<nat>, r: Record)
    requires Disjoint(s, hidden) && Step(s, Commit(kept, r), State(s.log + [r], []))
    ensures Disjoint(State(s.log + [r], []), hidden)
  {
    var log, spans := s.log + [r], r.event.compaction.spans;
    StepKeepsSafe(s, Commit(kept, r), State(log, []));
    LastAtBounds(s.log);
    forall q, k | Recorded(log, q, k) ensures Separated(log, hidden, SpanAt(q, k).from) {
      if q in s.log {
        assert Recorded(s.log, q, k);
        SeparatedAppend(s.log, hidden, SpanAt(q, k).from, r);
      } else if k == 0 {
        assert SepPoint(log, hidden, spans[0].from);
        assert Silent(log, hidden, spans[0].from, spans[0].from);
      } else {
        assert kept[0] < kept[k];
        SeparatedAppend(s.log, hidden, s.jobs[kept[k]].first, r);
      }
    }
    forall q, k, q', k' | Recorded(log, q, k) && Recorded(log, q', k') && (q != q' || k != k')
      ensures !Overlap(SpanAt(q, k), SpanAt(q', k')) {
      SpansStayApart(s, kept, r, q, k, q', k');
    }
  }

  lemma {:induction false} SpansStayApart(s: State, kept: seq<nat>, r: Record, q: Record, k: int, q': Record, k': int)
    requires Safe(s) && Apart(s.log) && JobsApart(s.log, s.jobs)
    requires Indices(kept, |s.jobs|) && r.event.ContextCompacted? && Records(r.event.compaction.spans, s.jobs, kept)
    requires Recorded(s.log + [r], q, k) && Recorded(s.log + [r], q', k') && (q != q' || k != k')
    ensures !Overlap(SpanAt(q, k), SpanAt(q', k'))
  {
    if q in s.log && q' in s.log {
      assert Recorded(s.log, q, k) && Recorded(s.log, q', k');
    } else if q in s.log {
      assert Recorded(s.log, q, k) && SpanAt(q', k') == SpanOf(s.jobs[kept[k']]);
    } else if q' in s.log {
      assert Recorded(s.log, q', k') && SpanAt(q, k) == SpanOf(s.jobs[kept[k]]);
    } else if k < k' {
      assert kept[k] < kept[k'];
    } else {
      assert kept[k'] < kept[k];
    }
  }

  lemma {:induction false} PlanKeepsDisjoint(s: State, hidden: Hidden, items: seq<Item>, jobs: seq<Job>, starts: seq<int>, ends: seq<int>)
    requires Disjoint(s, hidden) && Faithful(s.log, hidden, items) && GoodJobs(items, hidden, jobs, starts, ends)
    ensures Disjoint(State(s.log, jobs), hidden)
  {
    PlanKeepsSafe(s.log, hidden, items, jobs, starts, ends);
    forall x, r, k | 0 <= x < |jobs| && Recorded(s.log, r, k) ensures !Overlap(SpanOf(jobs[x]), SpanAt(r, k)) {
      NewJobApart(s.log, hidden, items, starts[x], ends[x], jobs[x], r, k);
    }
    forall x | 1 <= x < |jobs| ensures Separated(s.log, hidden, jobs[x].first) {
      LaterJobSeparated(s.log, hidden, items, starts[x], ends[x], jobs[x]);
    }
  }

  ghost predicate HiddenFixed(acts: seq<Action>, hidden: Hidden) {
    forall i | 0 <= i < |acts| && acts[i].Propose? :: acts[i].hidden == hidden
  }

  lemma {:induction false} StepKeepsDisjoint(s: State, a: Action, s': State, hidden: Hidden)
    requires Disjoint(s, hidden) && Step(s, a, s') && (a.Propose? ==> a.hidden == hidden)
    ensures Disjoint(s', hidden)
  {
    match a
    case Append(r) => AppendKeepsDisjoint(s, hidden, r);
    case Propose(_, prompt, tokens, policy) =>
      ListedLists(s.log, hidden, prompt);
      ItemsFaithful(s.log, hidden);
      var starts, ends := PlannedJobs(ListedMessages(s.log, hidden, prompt), ListedOrigins(s.log, hidden),
                                      Items(s.log, hidden), tokens, policy, hidden);
      PlanKeepsDisjoint(s, hidden, Items(s.log, hidden), s'.jobs, starts, ends);
    case Commit(kept, r) => CommitKeepsDisjoint(s, hidden, kept, r);
    case GiveUp =>
  }

  /** Over every run with one hidden set, recorded spans are pairwise disjoint, across
      compactions and within one, whatever summaries failed. */
  lemma {:induction false} RecordedSpansAreDisjoint(states: seq<State>, acts: seq<Action>, hidden: Hidden)
    requires Run(states, acts) && HiddenFixed(acts, hidden)
    ensures Disjoint(states[|acts|], hidden)
    decreases |acts|
  {
    if acts != [] {
      var n := |acts| - 1;
      var earlier, before := states[..n + 1], acts[..n];
      assert Run(earlier, before) && HiddenFixed(before, hidden);
      RecordedSpansAreDisjoint(earlier, before, hidden);
      assert earlier[n] == states[n];
      StepKeepsDisjoint(states[n], acts[n], states[n + 1], hidden);
    }
  }
}
