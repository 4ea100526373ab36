/** Every run of a session's log: records arriving, compactions planned on the
    current projection, and any subset of a plan's summaries recorded later. */
module CompactionRuns {
  import opened EventLog
  import opened HiddenRanges
  import opened Projection
  import opened ProjectionLaws
  import opened Compacting

  // --- the list a plan is made on -------------------------------------------------

  function ListedMessages(log: seq<Record>, hidden: Hidden, prompt: string): (ms: seq<Message>)
    ensures |ms| == |Items(log, hidden)| + 1
  {
    ItemsAre(log, hidden);
    [System(prompt)] + Messages(Items(log, hidden), PlanOf(log, hidden).attribute)
  }

  function ListedOrigins(log: seq<Record>, hidden: Hidden): seq<nat> {
    [0] + Origins(Items(log, hidden))
  }

  /** Whether an item reads as something a user said; notes always do. */
  ghost predicate UserItem(x: Item) { x.FromNote? || x.record.event.UserKind() }

  lemma {:induction false} NoteReads(log: seq<Record>, hidden: Hidden, k: int)
    requires 0 <= k < |Items(log, hidden)|
    ensures AllBearing(Items(log, hidden))
    ensures Items(log, hidden)[k].FromNote? ==> Items(log, hidden)[k].note.message.User?
  {
    hide Items, Floor, CoveredBy, Live;
    ItemsAre(log, hidden);
    var x := Items(log, hidden)[k];
    if x.FromNote? { assert FromNote(x.note) in Items(log, hidden); }
  }

  lemma {:induction false} ListedAt(log: seq<Record>, hidden: Hidden, prompt: string, k: int)
    requires 1 <= k < |ListedMessages(log, hidden, prompt)|
    ensures ListedOrigins(log, hidden)[k] == Items(log, hidden)[k - 1].Origin()
    ensures ListedMessages(log, hidden, prompt)[k].User? <==> UserItem(Items(log, hidden)[k - 1])
  {
    hide Items, PlanOf;
    NoteReads(log, hidden, k - 1);
    assert ListedMessages(log, hidden, prompt)[k] == MessageOf(Items(log, hidden)[k - 1], PlanOf(log, hidden).attribute);
  }

  // --- steps ------------------------------------------------------------------------

  /** A log, and the jobs of a compaction under way ([] when none is). */
  datatype State = State(log: seq<Record>, jobs: seq<Job>)

  datatype Action =
    | Append(record: Record)
    | Propose(hidden: Hidden, prompt: string, tokens: nat, policy: Policy)
    | Commit(kept: seq<nat>, record: Record)
    | GiveUp

  ghost predicate Indices(kept: seq<nat>, n: nat) {
    && (forall i | 0 <= i < |kept| :: kept[i] < n)
    && forall i, j | 0 <= i < j < |kept| :: kept[i] < kept[j]
  }

  /** The recorded spans are those of the jobs whose summary succeeded. */
  ghost predicate Records(spans: seq<SeqSpan>, jobs: seq<Job>, kept: seq<nat>)
    requires Indices(kept, |jobs|)
  {
    && |spans| == |kept|
    && forall i | 0 <= i < |spans| :: spans[i] == SeqSpan(jobs[kept[i]].first, jobs[kept[i]].last)
  }

  ghost predicate Step(s: State, a: Action, s': State) {
    match a
    case Append(r) =>
      && r.at > LastAt(s.log) && !r.event.ContextCompacted?
      && s' == s.(log := s.log + [r])
    case Propose(hidden, prompt, tokens, policy) =>
      var plan := PlanJobs(ListedMessages(s.log, hidden, prompt), ListedOrigins(s.log, hidden),
                           tokens, policy, hidden);
      s.jobs == [] && plan.Some? && s' == s.(jobs := plan.value)
    case Commit(kept, r) =>
      && kept != [] && Indices(kept, |s.jobs|)
      && r.at > LastAt(s.log) && r.event.ContextCompacted?
      && Records(r.event.compaction.spans, s.jobs, kept)
      && s' == State(s.log + [r], [])
    case GiveUp => s' == s.(jobs := [])
  }

  ghost predicate Run(states: seq<State>, acts: seq<Action>) {
    && |states| == |acts| + 1
    && states[0] == State([], [])
    && forall i | 0 <= i < |acts| :: Step(states[i], acts[i], states[i + 1])
  }

  // --- a planned job, seen from the log ---------------------------------------------

  /** The items from `i` to `j` are records no user said, and `job` covers them. */
  ghost predicate CoversItems(items: seq<Item>, i: int, j: int, job: Job) {
    && 0 <= i <= j < |items|
    && (forall k | i <= k <= j :: !UserItem(items[k]))
    && job.first == items[i].Origin() && job.last == items[j].Origin()
    && job.messages == j - i + 1
  }

  /** A user item stands right before the stretch. */
  ghost predicate UserBefore(items: seq<Item>, i: int) { 1 <= i <= |items| && UserItem(items[i - 1]) }

  /** `some` are the jobs at `kept`, none of them touching a hidden range. */
  ghost predicate Picks(jobs: seq<Job>, hidden: Hidden, kept: seq<nat>, some: seq<Job>) {
    && Indices(kept, |jobs|) && |kept| == |some|
    && forall x | 0 <= x < |kept| ::
         some[x] == jobs[kept[x]] && !hidden.Intersects(some[x].first, some[x].last)
  }

  lemma {:induction false} DropHiddenKeeps(jobs: seq<Job>, hidden: Hidden) returns (kept: seq<nat>)
    ensures Picks(jobs, hidden, kept, DropHiddenJobs(jobs, hidden))
  {
    hide Hidden.Intersects, Picks;
    if jobs == [] {
      kept := [];
      NothingPicked(hidden);
    } else {
      var rest := DropHiddenKeeps(jobs[1..], hidden);
      var moved := seq(|rest|, i requires 0 <= i < |rest| => rest[i] + 1);
      PickBehind(jobs, hidden, rest, moved, DropHiddenJobs(jobs[1..], hidden));
      kept := if hidden.Intersects(jobs[0].first, jobs[0].last) then moved else [0] + moved;
      assert [] + DropHiddenJobs(jobs[1..], hidden) == DropHiddenJobs(jobs[1..], hidden);
    }
  }

  lemma {:induction false} NothingPicked(hidden: Hidden)
    ensures Picks([], hidden, [], [])
  {}

  lemma {:induction false} PickBehind(jobs: seq<Job>, hidden: Hidden, rest: seq<nat>, moved: seq<nat>, some: seq<Job>)
    requires jobs != [] && Picks(jobs[1..], hidden, rest, some)
    requires |moved| == |rest| && forall i | 0 <= i < |rest| :: moved[i] == rest[i] + 1
    ensures Picks(jobs, hidden, moved, some)
    ensures !hidden.Intersects(jobs[0].first, jobs[0].last) ==> Picks(jobs, hidden, [0] + moved, [jobs[0]] + some)
  {
    hide Hidden.Intersects;
  }

  /** What the spans of a plan hold, whatever the rounds were. */
  ghost predicate GoodSpans(ms: seq<Message>, spans: seq<Round>) {
    && Gapped(spans) && Within(spans, 1, |ms| - 1)
    && (forall x, k | 0 <= x < |spans| && spans[x].start <= k <= spans[x].end :: !ms[k].User?)
    && forall x | 1 <= x < |spans| :: ms[spans[x].start - 1].User?
  }

  lemma {:induction false} PlanSpansGood(ms: seq<Message>, tokens: nat, policy: Policy)
    ensures GoodSpans(ms, PlanSpans(ms, tokens, policy))
  {
    var middle := EligibleMiddle(ms, policy.keepHead, policy.keepTail);
    if middle.Some? {
      var rounds := Rounds(ms, middle.value.0, middle.value.1);
      var need := SatSub(tokens, policy.target);
      SelectFromIsSelection(ms, rounds, need, 0);
      PlanSpansInRange(ms, middle.value.0, middle.value.1, need);
      var selected := SelectFrom(ms, rounds, need, 0);
      RoundsPartition(ms, middle.value.0, middle.value.1);
      assert selected == rounds[..|selected|];
      SpansAreMaximalRuns(selected);
      PrefixSpansGood(ms, middle.value.0, middle.value.1, rounds, selected, Spans(selected));
    }
  }

  ghost predicate RoundsCover(ms: seq<Message>, lo: nat, hi: nat, rounds: seq<Round>) {
    && hi < |ms| && Ascending(rounds)
    && forall k: int :: InSome(rounds, k) <==> lo <= k <= hi && !ms[k].User?
  }

  ghost predicate RunsOf(selected: seq<Round>, spans: seq<Round>) {
    && Gapped(spans)
    && (forall k: int :: InSome(spans, k) <==> InSome(selected, k))
    && forall x | 0 <= x < |spans| :: StartsAt(selected, spans[x].start)
  }

  lemma {:induction false} PrefixSpansGood(ms: seq<Message>, lo: nat, hi: nat, rounds: seq<Round>, selected: seq<Round>, spans: seq<Round>)
    requires 1 <= lo && RoundsCover(ms, lo, hi, rounds) && selected <= rounds
    requires RunsOf(selected, spans) && Within(spans, lo, hi)
    ensures GoodSpans(ms, spans)
  {
    forall x, k | 0 <= x < |spans| && spans[x].start <= k <= spans[x].end ensures !ms[k].User? {
      assert spans[x].Holds(k) && InSome(spans, k);
      SelectedAreRounds(rounds, selected, k);
    }
    forall x | 1 <= x < |spans| ensures ms[spans[x].start - 1].User? {
      BreakIsUser(ms, lo, hi, rounds, selected, spans, x);
    }
  }

  lemma {:induction false} SelectedAreRounds(rounds: seq<Round>, selected: seq<Round>, k: int)
    requires selected <= rounds && InSome(selected, k)
    ensures InSome(rounds, k)
  {
    var x :| 0 <= x < |selected| && selected[x].Holds(k);
    assert rounds[x].Holds(k);
  }

  /** A later span starts right behind a user message. */
  lemma {:induction false} BreakIsUser(ms: seq<Message>, lo: nat, hi: nat, rounds: seq<Round>, selected: seq<Round>,
                    spans: seq<Round>, x: int)
    requires RoundsCover(ms, lo, hi, rounds) && selected <= rounds
    requires RunsOf(selected, spans) && Within(spans, lo, hi) && 1 <= x < |spans|
    ensures lo < spans[x].start && ms[spans[x].start - 1].User?
  {
    var s := spans[x].start;
    assert spans[x - 1].end + 1 < s;
    if !ms[s - 1].User? {
      assert InSome(rounds, s - 1);
      assert StartsAt(selected, s);
      var i :| 0 <= i < |selected| && selected[i].start == s;
      BehindIsSelected(rounds, selected, i, s - 1);
      NotBetween(spans, x, s - 1);
      assert false;
    }
  }

  /** A round reaching behind a selected one was selected before it. */
  lemma {:induction false} BehindIsSelected(rounds: seq<Round>, selected: seq<Round>, i: int, k: int)
    requires Ascending(rounds) && selected <= rounds && 0 <= i < |selected|
    requires InSome(rounds, k) && k < selected[i].start
    ensures InSome(selected, k)
  {
    var r :| 0 <= r < |rounds| && rounds[r].Holds(k);
    assert rounds[i] == selected[i];
    assert selected[r].Holds(k);
  }

  lemma {:induction false} NotBetween(spans: seq<Round>, x: int, k: int)
    requires Gapped(spans) && 1 <= x < |spans| && spans[x - 1].end < k < spans[x].start
    ensures !InSome(spans, k)
  {
    forall y | 0 <= y < |spans| ensures !spans[y].Holds(k) {
      if y < x - 1 { assert spans[y].end + 1 < spans[x - 1].start; }
      if y > x { assert spans[x].end + 1 < spans[y].start; }
    }
  }

  /** Jobs as the projected items show them: each covers a run of records nobody
      said, later ones stand behind a user item, and none touches a hidden range. */
  ghost predicate GoodJobs(items: seq<Item>, hidden: Hidden, jobs: seq<Job>, starts: seq<int>, ends: seq<int>) {
    && |starts| == |jobs| == |ends|
    && (forall x | 0 <= x < |jobs| :: CoversItems(items, starts[x], ends[x], jobs[x]))
    && (forall x | 1 <= x < |jobs| :: UserBefore(items, starts[x]))
    && (forall x, y | 0 <= x < y < |jobs| :: ends[x] + 1 < starts[y])
    && (forall x | 0 <= x < |jobs| :: !hidden.Intersects(jobs[x].first, jobs[x].last))
  }

  /** Each job's items are one span of the list, which has the prompt in front. */
  ghost predicate MadeFrom(spans: seq<Round>, starts: seq<int>, ends: seq<int>) {
    && |starts| == |ends|
    && forall x | 0 <= x < |starts| ::
         starts[x] >= 0 && ends[x] >= 0 && Round(starts[x] + 1, ends[x] + 1) in spans
  }

  /** A list and the items it renders, behind the system prompt. */
  ghost predicate Lists(ms: seq<Message>, origins: seq<nat>, items: seq<Item>) {
    && |ms| == |origins| == |items| + 1
    && forall k | 1 <= k < |ms| :: origins[k] == items[k - 1].Origin() && (ms[k].User? <==> UserItem(items[k - 1]))
  }

  lemma {:induction false} ListedLists(log: seq<Record>, hidden: Hidden, prompt: string)
    ensures Lists(ListedMessages(log, hidden, prompt), ListedOrigins(log, hidden), Items(log, hidden))
  {
    var ms, origins, items := ListedMessages(log, hidden, prompt), ListedOrigins(log, hidden), Items(log, hidden);
    forall k | 1 <= k < |ms| ensures origins[k] == items[k - 1].Origin() && (ms[k].User? <==> UserItem(items[k - 1])) {
      ListedAt(log, hidden, prompt, k);
    }
  }

  lemma {:induction false} SpanCoversItems(ms: seq<Message>, origins: seq<nat>, items: seq<Item>, s: Round)
    requires Lists(ms, origins, items) && 1 <= s.start <= s.end < |ms|
    requires forall k | s.start <= k <= s.end :: !ms[k].User?
    ensures CoversItems(items, s.start - 1, s.end - 1, Job(origins[s.start], origins[s.end], s.end - s.start + 1))
  {
    forall k | s.start - 1 <= k <= s.end - 1 ensures !UserItem(items[k]) {
      assert !ms[k + 1].User?;
    }
  }

  /** A plan made on such a list is made of such jobs. */
  lemma {:induction false} PlannedJobs(ms: seq<Message>, origins: seq<nat>, items: seq<Item>, tokens: nat, policy: Policy, hidden: Hidden)
    returns (starts: seq<int>, ends: seq<int>)
    requires Lists(ms, origins, items)
    requires PlanJobs(ms, origins, tokens, policy, hidden).Some?
    ensures GoodJobs(items, hidden, PlanJobs(ms, origins, tokens, policy, hidden).value, starts, ends)
    ensures MadeFrom(PlanSpans(ms, tokens, policy), starts, ends)
  {
    var spans := PlanSpans(ms, tokens, policy);
    PlanSpansGood(ms, tokens, policy);
    starts, ends := SpansMakeGoodJobs(ms, origins, items, spans, hidden);
  }

  lemma {:induction false} SpansMakeGoodJobs(ms: seq<Message>, origins: seq<nat>, items: seq<Item>, spans: seq<Round>, hidden: Hidden)
    returns (starts: seq<int>, ends: seq<int>)
    requires Lists(ms, origins, items) && GoodSpans(ms, spans)
    ensures GoodJobs(items, hidden, DropHiddenJobs(JobsOf(spans, origins), hidden), starts, ends)
    ensures MadeFrom(spans, starts, ends)
  {
    hide DropHiddenJobs, Hidden.Intersects, JobsOf, GoodJobs;
    var all := JobsOf(spans, origins);
    var kept := DropHiddenKeeps(all, hidden);
    JobsOfLength(spans, origins);
    starts := seq(|kept|, x requires 0 <= x < |kept| => spans[kept[x]].start - 1);
    ends := seq(|kept|, x requires 0 <= x < |kept| => spans[kept[x]].end - 1);
    KeptJobsGood(ms, origins, items, spans, hidden, DropHiddenJobs(all, hidden), kept, starts, ends);
    forall x | 0 <= x < |starts| ensures Round(starts[x] + 1, ends[x] + 1) in spans {
      assert spans[kept[x]] == Round(starts[x] + 1, ends[x] + 1);
    }
  }

  lemma {:induction false} JobsOfLength(spans: seq<Round>, origins: seq<nat>)
    requires Within(spans, 0, |origins| - 1)
    ensures |JobsOf(spans, origins)| == |spans|
  {}

  lemma {:induction false} KeptJobsGood(ms: seq<Message>, origins: seq<nat>, items: seq<Item>, spans: seq<Round>,
      hidden: Hidden, jobs: seq<Job>, kept: seq<nat>, starts: seq<int>, ends: seq<int>)
    requires Lists(ms, origins, items) && GoodSpans(ms, spans) && Indices(kept, |spans|)
    requires Picks(JobsOf(spans, origins), hidden, kept, jobs) && |kept| == |starts| == |ends|
    requires forall x | 0 <= x < |kept| :: starts[x] == spans[kept[x]].start - 1 && ends[x] == spans[kept[x]].end - 1
    ensures GoodJobs(items, hidden, jobs, starts, ends)
  {
    hide Hidden.Intersects;
    forall x | 0 <= x < |jobs| ensures CoversItems(items, starts[x], ends[x], jobs[x]) {
      SpanCoversItems(ms, origins, items, spans[kept[x]]);
    }
    forall x | 1 <= x < |jobs| ensures UserBefore(items, starts[x]) {
      assert kept[0] < kept[x];
      assert ms[spans[kept[x]].start - 1].User?;
    }
  }

  // --- user text is never covered -----------------------------------------------------

  /** No user-kind record of the log lies in the interval. */
  ghost predicate Spares(log: seq<Record>, from: nat, through: nat) {
    forall r :: r in log && r.event.UserKind() ==> !(from <= r.at <= through)
  }

  ghost predicate JobsSpare(log: seq<Record>, jobs: seq<Job>) {
    && (forall x | 0 <= x < |jobs| ::
          0 < jobs[x].first <= jobs[x].last <= LastAt(log) && Spares(log, jobs[x].first, jobs[x].last))
    && forall x, y | 0 <= x < y < |jobs| :: jobs[x].last < jobs[y].first
  }

  ghost predicate SpansSpare(log: seq<Record>) {
    forall r, k :: r in log && r.event.ContextCompacted? && 0 <= k < |r.event.compaction.spans| ==>
      var s := r.event.compaction.spans[k];
      0 < s.from <= s.through < r.at && Spares(log, s.from, s.through)
  }

  /** A recorded span lies behind its own record, whatever it holds. */
  ghost predicate SpansBehind(log: seq<Record>) {
    forall r, k :: r in log && r.event.ContextCompacted? && 0 <= k < |r.event.compaction.spans| ==>
      0 < r.event.compaction.spans[k].from <= r.event.compaction.spans[k].through < r.at
  }

  lemma {:induction false} SpareIsBehind(log: seq<Record>)
    requires SpansSpare(log)
    ensures SpansBehind(log)
  {
    hide Spares;
  }

  ghost predicate Safe(s: State) {
    Chronological(s.log) && SpansSpare(s.log) && JobsSpare(s.log, s.jobs)
  }

  lemma {:induction false} SparesAppend(log: seq<Record>, r: Record, from: nat, through: nat)
    requires Spares(log, from, through) && through < r.at
    ensures Spares(log + [r], from, through)
  {}

  lemma {:induction false} LastAtBounds(log: seq<Record>)
    requires Chronological(log)
    ensures forall r :: r in log ==> 0 < r.at <= LastAt(log)
  {}

  lemma {:induction false} AppendKeepsSafe(log: seq<Record>, jobs: seq<Job>, r: Record)
    requires Safe(State(log, jobs)) && r.at > LastAt(log)
    requires r.event.ContextCompacted? ==> forall k | 0 <= k < |r.event.compaction.spans| ::
               var s := r.event.compaction.spans[k];
               0 < s.from <= s.through <= LastAt(log) && Spares(log, s.from, s.through)
    ensures Safe(State(log + [r], jobs))
  {
    ChronologicalAppend(log, r);
    LastAtBounds(log);
    forall x | 0 <= x < |jobs| ensures Spares(log + [r], jobs[x].first, jobs[x].last) {
      SparesAppend(log, r, jobs[x].first, jobs[x].last);
    }
    forall q, k | q in log + [r] && q.event.ContextCompacted? && 0 <= k < |q.event.compaction.spans|
      ensures var s := q.event.compaction.spans[k];
              0 < s.from <= s.through < q.at && Spares(log + [r], s.from, s.through) {
      var s := q.event.compaction.spans[k];
      SparesAppend(log, r, s.from, s.through);
    }
  }

  lemma {:induction false} ItemIn(items: seq<Item>, k: int)
    requires 0 <= k < |items|
    ensures items[k].FromRecord? ==> FromRecord(items[k].record) in items
    ensures items[k].FromNote? ==> FromNote(items[k].note) in items
  {
    assert items[k] in items;
  }

  /** The endpoints of a job are records of the log, shown. */
  lemma {:induction false} JobEnds(log: seq<Record>, hidden: Hidden, items: seq<Item>, i: int, j: int, job: Job)
    requires Chronological(log) && Faithful(log, hidden, items) && CoversItems(items, i, j, job)
    ensures items[i].FromRecord? && items[i].record in log && items[i].record.at == job.first
    ensures items[j].FromRecord? && items[j].record in log && items[j].record.at == job.last
    ensures Floor(log) < job.first <= job.last <= LastAt(log)
    ensures !CoveredBy(log, Floor(log), job.first) && !CoveredBy(log, Floor(log), job.last)
    ensures !hidden.Contains(job.first)
  {
    ItemIn(items, i);
    ItemIn(items, j);
    LastAtBounds(log);
  }

  /** A shown record within a job's interval stands among the job's items. */
  lemma {:induction false} ShownInside(log: seq<Record>, hidden: Hidden, items: seq<Item>, i: int, j: int, job: Job, r: Record)
    requires Chronological(log) && Faithful(log, hidden, items) && CoversItems(items, i, j, job)
    requires FromRecord(r) in items && job.first <= r.at <= job.last
    ensures exists m :: i <= m <= j && items[m] == FromRecord(r)
  {
    JobEnds(log, hidden, items, i, j, job);
    var m :| 0 <= m < |items| && items[m] == FromRecord(r);
    assert i <= m <= j;
  }

  /** A user-kind record inside a planned interval would stand among its items. */
  lemma {:induction false} JobSparesUsers(log: seq<Record>, hidden: Hidden, items: seq<Item>, i: int, j: int, job: Job)
    requires Chronological(log) && SpansSpare(log) && Faithful(log, hidden, items)
    requires CoversItems(items, i, j, job) && !hidden.Intersects(job.first, job.last)
    ensures 0 < job.first <= job.last <= LastAt(log) && Spares(log, job.first, job.last)
  {
    JobEnds(log, hidden, items, i, j, job);
    forall r | r in log && r.event.UserKind() ensures !(job.first <= r.at <= job.last) {
      if job.first <= r.at <= job.last {
        NotCoveredUser(log, r);
        NotHiddenInside(hidden, job, r.at);
        assert FromRecord(r) in items;
        ShownInside(log, hidden, items, i, j, job, r);
        assert false;
      }
    }
  }

  lemma {:induction false} NotCoveredUser(log: seq<Record>, r: Record)
    requires SpansSpare(log) && r in log && r.event.UserKind()
    ensures !CoveredBy(log, Floor(log), r.at)
  {}

  lemma {:induction false} NotHiddenInside(hidden: Hidden, job: Job, at: nat)
    requires job.first <= at <= job.last && !hidden.Intersects(job.first, job.last)
    ensures !hidden.Contains(at)
  {}

  /** A model record standing before a user item has a smaller sequence. */
  lemma {:induction false} BeforeUserItem(log: seq<Record>, hidden: Hidden, items: seq<Item>, m: int, k: int)
    requires Chronological(log) && Faithful(log, hidden, items) && 0 <= m < k < |items|
    requires !UserItem(items[m]) && UserItem(items[k])
    ensures items[m].Origin() < items[k].Origin()
  {
    ItemIn(items, m);
    ItemIn(items, k);
    if items[k].FromNote? { assert !(k < m); }
  }

  /** Two record items parted by a user item have different sequences. */
  lemma {:induction false} JobsRise(log: seq<Record>, hidden: Hidden, items: seq<Item>, j: int, i: int)
    requires Chronological(log) && Faithful(log, hidden, items) && 0 <= j < i < |items|
    requires !UserItem(items[j]) && UserBefore(items, i) && j + 1 < i
    ensures items[j].Origin() < items[i].Origin()
  {
    BeforeUserItem(log, hidden, items, j, i - 1);
  }

  lemma {:induction false} PlanKeepsSafe(log: seq<Record>, hidden: Hidden, items: seq<Item>, jobs: seq<Job>, starts: seq<int>, ends: seq<int>)
    requires Chronological(log) && SpansSpare(log) && Faithful(log, hidden, items)
    requires GoodJobs(items, hidden, jobs, starts, ends)
    ensures JobsSpare(log, jobs)
  {
    forall x | 0 <= x < |jobs| ensures
        0 < jobs[x].first <= jobs[x].last <= LastAt(log) && Spares(log, jobs[x].first, jobs[x].last) {
      JobSparesUsers(log, hidden, items, starts[x], ends[x], jobs[x]);
    }
    forall x, y | 0 <= x < y < |jobs| ensures jobs[x].last < jobs[y].first {
      JobsRise(log, hidden, items, ends[x], starts[y]);
    }
  }

  lemma {:induction false} StepKeepsSafe(s: State, a: Action, s': State)
    requires Safe(s) && Step(s, a, s')
    ensures Safe(s')
  {
    match a
    case Append(r) => AppendKeepsSafe(s.log, s.jobs, r);
    case Propose(hidden, prompt, tokens, policy) =>
      ListedLists(s.log, hidden, prompt);
      ItemsFaithful(s.log, hidden);
      var starts, ends := PlannedJobs(ListedMessages(s.log, hidden, prompt), ListedOrigins(s.log, hidden),
                                      Items(s.log, hidden), tokens, policy, hidden);
      PlanKeepsSafe(s.log, hidden, Items(s.log, hidden), s'.jobs, starts, ends);
    case Commit(kept, r) =>
      AppendKeepsSafe(s.log, [], r);
    case GiveUp =>
  }

  lemma {:induction false} CoverageGrows(log: seq<Record>, r: Record, at: nat)
    requires CoveredBy(log, 0, at)
    ensures CoveredBy(log + [r], 0, at)
  {
    var q, k :| q in log && Live(q, 0) && 0 <= k < |q.event.compaction.spans| && q.event.compaction.spans[k].Has(at);
    assert q in log + [r];
  }

  lemma {:induction false} CoverageAboveFloor(log: seq<Record>, at: nat)
    requires SpansSpare(log) && at > Floor(log)
    ensures CoveredBy(log, 0, at) <==> CoveredBy(log, Floor(log), at)
  {
    SpareIsBehind(log);
    hide CoveredBy, Floor, SpansSpare;
    LiveAboveFloor(log, at);
  }

  /** Above the floor, being covered at all and being covered live are the same. */
  lemma {:induction false} LiveAboveFloor(log: seq<Record>, at: nat)
    requires SpansBehind(log) && at > Floor(log)
    ensures CoveredBy(log, 0, at) <==> CoveredBy(log, Floor(log), at)
  {
    if CoveredBy(log, 0, at) {
      var r, k :| r in log && Live(r, 0) && 0 <= k < |r.event.compaction.spans| && r.event.compaction.spans[k].Has(at);
      assert Live(r, Floor(log));
    }
    if CoveredBy(log, Floor(log), at) {
      var r, k :| r in log && Live(r, Floor(log)) && 0 <= k < |r.event.compaction.spans|
               && r.event.compaction.spans[k].Has(at);
      assert Live(r, 0);
    }
  }

  /** Over every run, with the hidden ranges free to change at each plan, no covered
      interval ever holds something a user said. */
  lemma {:induction false} UserTextIsNeverCovered(states: seq<State>, acts: seq<Action>)
    requires Run(states, acts)
    ensures Safe(states[|acts|])
    decreases |acts|
  {
    if acts != [] {
      var n := |acts| - 1;
      var earlier, before := states[..n + 1], acts[..n];
      assert Run(earlier, before);
      UserTextIsNeverCovered(earlier, before);
      assert earlier[n] == states[n];
      StepKeepsSafe(states[n], acts[n], states[n + 1]);
    }
  }
}
