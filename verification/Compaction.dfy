/** Choosing what a compaction sheds: the eligible middle, its rounds, the
    oldest-first selection and the spans it makes. */
module Compacting {
  import opened EventLog
  import opened HiddenRanges

  // --- sizes --------------------------------------------------------------------

  function CallChars(calls: seq<Call>): nat {
    if calls == [] then 0
    else 35 + |calls[0].id| + |calls[0].name| + |calls[0].arguments| + CallChars(calls[1..])
  }

  /** Characters reachable in a message: keys, constants and text. */
  function CharCount(m: Message): nat {
    match m
    case System(prompt) => 17 + |prompt|
    case User(content) => 15 + |content|
    case Assistant(text, calls) => 20 + |text| + (if calls == [] then 0 else 10 + CallChars(calls))
    case Tool(id, output, _) => 46 + |id| + |output|
  }

  /** Four characters a token; the cast to u32 truncates. */
  function EstTokens(m: Message): nat { (CharCount(m) + 3) / 4 % (U32_MAX + 1) }

  function Estimate(ms: seq<Message>): nat {
    if ms == [] then 0 else SatAdd(Estimate(ms[..|ms| - 1]), EstTokens(ms[|ms| - 1]))
  }

  /** A longer list is never estimated smaller. */
  lemma {:induction false} EstimateGrows(ms: seq<Message>, more: seq<Message>)
    ensures Estimate(ms) <= Estimate(ms + more) <= U32_MAX
    decreases |more|
  {
    EstimateFits(ms);
    if more == [] {
      assert ms + more == ms;
    } else {
      EstimateGrows(ms, more[..|more| - 1]);
      assert (ms + more)[..|ms + more| - 1] == ms + more[..|more| - 1];
      EstimateFits(ms + more[..|more| - 1]);
    }
  }

  lemma {:induction false} EstimateFits(ms: seq<Message>)
    ensures Estimate(ms) <= U32_MAX
  {}

  datatype Policy = Policy(enabled: bool, trigger: nat, target: nat, keepHead: nat, keepTail: nat) {
    predicate ShouldCompact(contextTokens: nat) {
      enabled && contextTokens > 0 && contextTokens >= trigger
    }
  }

  // --- the eligible middle --------------------------------------------------------

  /** Message indices, both inclusive. */
  datatype Round = Round(start: nat, end: nat) {
    predicate Holds(k: int) { start <= k <= end }
  }

  predicate IsTool(ms: seq<Message>, i: int) { 0 <= i < |ms| && ms[i].Tool? }

  function SkipTools(ms: seq<Message>, lo: nat, hi: int): (r: nat)
    requires hi < |ms|
    ensures r >= lo && (forall k | lo <= k < r :: IsTool(ms, k))
    ensures r <= hi ==> !IsTool(ms, r)
    decreases hi - lo
  { if lo <= hi && ms[lo].Tool? then SkipTools(ms, lo + 1, hi) else lo }

  function PullBack(ms: seq<Message>, lo: nat, hi: int): (r: int)
    requires hi < |ms|
    ensures r <= hi && (forall k | r + 1 < k <= hi + 1 :: IsTool(ms, k))
    ensures r >= lo ==> !IsTool(ms, r + 1)
    decreases hi - lo
  { if hi >= lo && IsTool(ms, hi + 1) then PullBack(ms, lo, hi - 1) else hi }

  /** The stretch between the kept head and tail, its edges off orphaned results. */
  function EligibleMiddle(ms: seq<Message>, keepHead: nat, keepTail: nat): (r: Option<(nat, nat)>)
    ensures r.Some? ==> 1 + keepHead <= r.value.0 <= r.value.1 < |ms| - keepTail
    ensures r.Some? ==> !IsTool(ms, r.value.0) && !IsTool(ms, r.value.1 + 1)
  {
    if |ms| < keepTail + 1 then None
    else
      var last := |ms| - (keepTail + 1);
      var lo := SkipTools(ms, 1 + keepHead, last);
      var hi := PullBack(ms, lo, last);
      if hi >= lo then Some((lo, hi)) else None
  }

  method FindEligibleMiddle(ms: seq<Message>, keepHead: nat, keepTail: nat) returns (r: Option<(nat, nat)>)
    ensures r == EligibleMiddle(ms, keepHead, keepTail)
  {
    if |ms| < keepTail + 1 { return None; }
    var hi: int := |ms| - (keepTail + 1);
    var lo := 1 + keepHead;
    ghost var last := hi;
    while lo <= hi && ms[lo].Tool?
      invariant SkipTools(ms, 1 + keepHead, last) == SkipTools(ms, lo, hi)
    { lo := lo + 1; }
    while hi >= lo && hi + 1 < |ms| && ms[hi + 1].Tool?
      invariant hi <= last
      invariant PullBack(ms, lo, last) == PullBack(ms, lo, hi)
    { hi := hi - 1; }
    r := if hi >= lo then Some((lo, hi)) else None;
  }

  // --- rounds -----------------------------------------------------------------------

  /** The last index of the run of tool results after `i`, within `hi`. */
  function ToolRunEnd(ms: seq<Message>, i: nat, hi: nat): (e: nat)
    requires i <= hi < |ms|
    ensures i <= e <= hi && (forall k | i < k <= e :: ms[k].Tool?)
    ensures e < hi ==> !ms[e + 1].Tool?
    decreases hi - i
  { if i < hi && ms[i + 1].Tool? then ToolRunEnd(ms, i + 1, hi) else i }

  function RoundAt(ms: seq<Message>, i: nat, hi: nat): (r: Round)
    requires i <= hi < |ms|
    ensures r.start == i && i <= r.end <= hi
  { if ms[i].HasToolCalls() then Round(i, ToolRunEnd(ms, i, hi)) else Round(i, i) }

  function Rounds(ms: seq<Message>, i: nat, hi: nat): seq<Round>
    requires hi < |ms|
    decreases hi + 1 - i
  {
    if i > hi then []
    else if ms[i].User? then Rounds(ms, i + 1, hi)
    else [RoundAt(ms, i, hi)] + Rounds(ms, RoundAt(ms, i, hi).end + 1, hi)
  }

  /** One turn of the walk, behind the rounds found so far. */
  lemma {:induction false} RoundsNext(ms: seq<Message>, i: nat, hi: nat, out: seq<Round>)
    requires i <= hi < |ms|
    ensures out + Rounds(ms, i, hi)
         == if ms[i].User? then out + Rounds(ms, i + 1, hi)
            else (out + [RoundAt(ms, i, hi)]) + Rounds(ms, RoundAt(ms, i, hi).end + 1, hi)
  {
    if !ms[i].User? {
      var r := RoundAt(ms, i, hi);
      assert out + ([r] + Rounds(ms, r.end + 1, hi)) == (out + [r]) + Rounds(ms, r.end + 1, hi);
    }
  }

  lemma {:induction false} NoRounds(ms: seq<Message>, i: nat, hi: nat)
    requires hi < |ms| && i > hi
    ensures Rounds(ms, i, hi) == []
  {}

  lemma {:induction false} RoundIs(ms: seq<Message>, start: nat, hi: nat, end: nat)
    requires start <= hi < |ms|
    requires end == if ms[start].HasToolCalls() then ToolRunEnd(ms, start, hi) else start
    ensures RoundAt(ms, start, hi) == Round(start, end)
  {}

  method FindRounds(ms: seq<Message>, lo: nat, hi: nat) returns (out: seq<Round>)
    requires hi < |ms|
    ensures out == Rounds(ms, lo, hi)
  {
    hide Rounds, RoundAt;
    out := [];
    var i := lo;
    assert [] + Rounds(ms, lo, hi) == Rounds(ms, lo, hi);
    while i <= hi
      invariant out + Rounds(ms, i, hi) == Rounds(ms, lo, hi)
      decreases hi + 1 - i
    {
      RoundsNext(ms, i, hi, out);
      if ms[i].User? { i := i + 1; continue; }
      var start := i;
      i := i + 1;
      if ms[start].HasToolCalls() {
        while i <= hi && ms[i].Tool?
          invariant start < i <= hi + 1
          invariant ToolRunEnd(ms, start, hi) == ToolRunEnd(ms, i - 1, hi)
        { i := i + 1; }
      }
      RoundIs(ms, start, hi, i - 1);
      out := out + [Round(start, i - 1)];
    }
    NoRounds(ms, i, hi);
  }

  predicate InSome(rs: seq<Round>, k: int) { exists x :: 0 <= x < |rs| && rs[x].Holds(k) }

  predicate Within(spans: seq<Round>, lo: int, hi: int) {
    forall x | 0 <= x < |spans| :: lo <= spans[x].start <= spans[x].end <= hi
  }

  ghost predicate Ascending(rs: seq<Round>) {
    && (forall x | 0 <= x < |rs| :: rs[x].start <= rs[x].end)
    && forall x, y | 0 <= x < y < |rs| :: rs[x].end < rs[y].start
  }

  /** A call is never parted from the results that follow it inside `hi`. */
  ghost predicate Whole(ms: seq<Message>, r: Round, hi: int) {
    && 0 <= r.start <= r.end <= hi < |ms|
    && (forall k | r.start < k <= r.end :: ms[k].Tool?)
    && if ms[r.start].HasToolCalls() then r.end < hi ==> !ms[r.end + 1].Tool? else r.end == r.start
  }

  lemma {:induction false} RoundsWithin(ms: seq<Message>, lo: nat, hi: nat)
    requires hi < |ms|
    ensures Within(Rounds(ms, lo, hi), lo, hi)
    ensures Ascending(Rounds(ms, lo, hi))
    decreases hi + 1 - lo
  {
    if lo > hi {
    } else if ms[lo].User? {
      RoundsWithin(ms, lo + 1, hi);
    } else {
      var r := RoundAt(ms, lo, hi);
      RoundsWithin(ms, r.end + 1, hi);
      FirstRound(r, Rounds(ms, r.end + 1, hi), lo, hi);
    }
  }

  lemma {:induction false} FirstRound(r: Round, rest: seq<Round>, lo: int, hi: int)
    requires lo <= r.start <= r.end <= hi && Within(rest, r.end + 1, hi) && Ascending(rest)
    ensures Within([r] + rest, lo, hi) && Ascending([r] + rest)
  {}

  lemma {:induction false} RoundsHold(ms: seq<Message>, lo: nat, hi: nat, k: int)
    requires hi < |ms|
    ensures InSome(Rounds(ms, lo, hi), k) <==> lo <= k <= hi && !ms[k].User?
    decreases hi + 1 - lo
  {
    if lo > hi {
    } else if ms[lo].User? {
      RoundsHold(ms, lo + 1, hi, k);
    } else {
      var r := RoundAt(ms, lo, hi);
      RoundsHold(ms, r.end + 1, hi, k);
      InSomeCons(r, Rounds(ms, r.end + 1, hi), k);
    }
  }

  /** `Rounds` parts exactly the non-user messages of the middle, in order. */
  lemma {:induction false} RoundsPartition(ms: seq<Message>, lo: nat, hi: nat)
    requires hi < |ms|
    ensures Ascending(Rounds(ms, lo, hi)) && Within(Rounds(ms, lo, hi), lo, hi)
    ensures forall k: int :: InSome(Rounds(ms, lo, hi), k) <==> lo <= k <= hi && !ms[k].User?
  {
    RoundsWithin(ms, lo, hi);
    forall k: int ensures InSome(Rounds(ms, lo, hi), k) <==> lo <= k <= hi && !ms[k].User? {
      RoundsHold(ms, lo, hi, k);
    }
  }

  /** No round parts a call from the results that answer it. */
  lemma {:induction false} RoundsWhole(ms: seq<Message>, lo: nat, hi: nat)
    requires hi < |ms|
    ensures forall x | 0 <= x < |Rounds(ms, lo, hi)| :: Whole(ms, Rounds(ms, lo, hi)[x], hi)
    decreases hi + 1 - lo
  {
    if lo > hi {
    } else if ms[lo].User? {
      RoundsWhole(ms, lo + 1, hi);
    } else {
      RoundsWhole(ms, RoundAt(ms, lo, hi).end + 1, hi);
    }
  }

  lemma {:induction false} InSomeCons(r: Round, rest: seq<Round>, k: int)
    ensures InSome([r] + rest, k) <==> r.Holds(k) || InSome(rest, k)
  {
    if r.Holds(k) { assert ([r] + rest)[0].Holds(k); }
    if InSome(rest, k) {
      var x :| 0 <= x < |rest| && rest[x].Holds(k);
      assert ([r] + rest)[x + 1].Holds(k);
    }
  }

  lemma {:induction false} InSomeSnoc(init: seq<Round>, r: Round, k: int)
    ensures InSome(init + [r], k) <==> InSome(init, k) || r.Holds(k)
  {
    if r.Holds(k) { assert (init + [r])[|init|].Holds(k); }
    if InSome(init, k) {
      var x :| 0 <= x < |init| && init[x].Holds(k);
      assert (init + [r])[x].Holds(k);
    }
  }

  // --- selection ----------------------------------------------------------------------

  function TokensIn(ms: seq<Message>, from: nat, end: nat): nat
    requires from <= end <= |ms|
    decreases end - from
  { if from == end then 0 else EstTokens(ms[from]) + TokensIn(ms, from + 1, end) }

  /** One round's estimate; the u32 sum wraps in a release build. */
  function RoundTokens(ms: seq<Message>, r: Round): nat {
    if r.start <= r.end < |ms| then TokensIn(ms, r.start, r.end + 1) % (U32_MAX + 1) else 0
  }

  /** What the first rounds of a list shed together. */
  function Shed(ms: seq<Message>, rs: seq<Round>): nat {
    if rs == [] then 0 else SatAdd(Shed(ms, rs[..|rs| - 1]), RoundTokens(ms, rs[|rs| - 1]))
  }

  /** The shortest oldest-first prefix that sheds `need`, or every round. */
  ghost predicate IsSelection(ms: seq<Message>, rounds: seq<Round>, need: nat, picked: seq<Round>) {
    && picked <= rounds
    && (Shed(ms, picked) >= need || picked == rounds)
    && forall n | 0 <= n < |picked| :: Shed(ms, rounds[..n]) < need
  }

  lemma {:induction false} SelectionUnique(ms: seq<Message>, rounds: seq<Round>, need: nat, a: seq<Round>, b: seq<Round>)
    requires IsSelection(ms, rounds, need, a) && IsSelection(ms, rounds, need, b)
    ensures a == b
  {
    assert a == rounds[..|a|] && b == rounds[..|b|];
  }

  function SelectFrom(ms: seq<Message>, rounds: seq<Round>, need: nat, n: nat): seq<Round>
    requires n <= |rounds|
    decreases |rounds| - n
  {
    if n == |rounds| || Shed(ms, rounds[..n]) >= need then rounds[..n]
    else SelectFrom(ms, rounds, need, n + 1)
  }

  lemma {:induction false} SelectFromIsSelection(ms: seq<Message>, rounds: seq<Round>, need: nat, n: nat)
    requires n <= |rounds|
    requires forall m | 0 <= m < n :: Shed(ms, rounds[..m]) < need
    ensures IsSelection(ms, rounds, need, SelectFrom(ms, rounds, need, n))
    decreases |rounds| - n
  {
    if n == |rounds| || Shed(ms, rounds[..n]) >= need {
    } else {
      SelectFromIsSelection(ms, rounds, need, n + 1);
    }
  }

  method Select(ms: seq<Message>, rounds: seq<Round>, need: nat) returns (selected: seq<Round>)
    requires forall x | 0 <= x < |rounds| :: rounds[x].start <= rounds[x].end < |ms|
    ensures IsSelection(ms, rounds, need, selected)
    ensures selected == SelectFrom(ms, rounds, need, 0)
  {
    selected := [];
    var shed := 0;
    hide EstTokens;
    for n := 0 to |rounds|
      invariant selected == rounds[..n] && shed == Shed(ms, selected)
      invariant forall m | 0 <= m < n :: Shed(ms, rounds[..m]) < need
    {
      if shed >= need { break; }
      var r := rounds[n];
      var sum := 0;
      var i := r.end + 1;
      while i > r.start
        invariant r.start <= i <= r.end + 1
        invariant sum == TokensIn(ms, i, r.end + 1)
      {
        i := i - 1;
        sum := sum + EstTokens(ms[i]);
      }
      shed := SatAdd(shed, sum % (U32_MAX + 1));
      selected := selected + [r];
      assert selected[..n] == rounds[..n];
    }
    assert rounds[..|rounds|] == rounds;
    SelectFromIsSelection(ms, rounds, need, 0);
    SelectionUnique(ms, rounds, need, selected, SelectFrom(ms, rounds, need, 0));
  }

  // --- spans ---------------------------------------------------------------------------

  /** Extends the open span with an adjoining round, or opens a new one. */
  function Join(out: seq<Round>, r: Round): seq<Round> {
    if out != [] && r.start == out[|out| - 1].end + 1
    then out[..|out| - 1] + [Round(out[|out| - 1].start, r.end)]
    else out + [r]
  }

  function Spans(selected: seq<Round>): seq<Round> {
    if selected == [] then [] else Join(Spans(selected[..|selected| - 1]), selected[|selected| - 1])
  }

  method FindSpans(selected: seq<Round>) returns (out: seq<Round>)
    ensures out == Spans(selected)
  {
    out := [];
    for i := 0 to |selected|
      invariant out == Spans(selected[..i])
    {
      var r := selected[i];
      assert selected[..i + 1][..i] == selected[..i];
      if out != [] && r.start == out[|out| - 1].end + 1 {
        out := out[|out| - 1 := Round(out[|out| - 1].start, r.end)];
      } else {
        out := out + [r];
      }
    }
    assert selected[..|selected|] == selected;
  }

  /** Consecutive spans keep a gap: every run is maximal. */
  ghost predicate Gapped(rs: seq<Round>) {
    && (forall x | 0 <= x < |rs| :: rs[x].start <= rs[x].end)
    && forall x, y | 0 <= x < y < |rs| :: rs[x].end + 1 < rs[y].start
  }

  lemma {:induction false} SpansGapped(selected: seq<Round>)
    requires Ascending(selected)
    ensures Gapped(Spans(selected))
    ensures (selected == []) == (Spans(selected) == [])
    ensures selected != [] ==> Spans(selected)[|Spans(selected)| - 1].end == selected[|selected| - 1].end
  {
    if selected != [] {
      var init, r := selected[..|selected| - 1], selected[|selected| - 1];
      assert Ascending(init);
      SpansGapped(init);
      if init != [] { assert init[|init| - 1].end < r.start; }
      JoinGapped(Spans(init), r);
    }
  }

  lemma {:induction false} JoinGapped(out: seq<Round>, r: Round)
    requires Gapped(out) && r.start <= r.end
    requires out != [] ==> out[|out| - 1].end < r.start
    ensures Gapped(Join(out, r)) && Join(out, r) != [] && Join(out, r)[|Join(out, r)| - 1].end == r.end
  {}

  lemma {:induction false} JoinHolds(out: seq<Round>, r: Round, k: int)
    requires Gapped(out) && r.start <= r.end
    ensures InSome(Join(out, r), k) <==> InSome(out, k) || r.Holds(k)
  {
    if out != [] && r.start == out[|out| - 1].end + 1 {
      var head, last := out[..|out| - 1], out[|out| - 1];
      assert out == head + [last];
      InSomeSnoc(head, Round(last.start, r.end), k);
      InSomeSnoc(head, last, k);
    } else {
      InSomeSnoc(out, r, k);
    }
  }

  lemma {:induction false} SpansHoldTheSame(selected: seq<Round>, k: int)
    requires Ascending(selected)
    ensures InSome(Spans(selected), k) <==> InSome(selected, k)
  {
    if selected != [] {
      var init, r := selected[..|selected| - 1], selected[|selected| - 1];
      assert Ascending(init) && selected == init + [r] && r.start <= r.end;
      hide Join, InSome, Ascending, Gapped;
      SpansHoldTheSame(init, k);
      SpansGapped(init);
      JoinHolds(Spans(init), r, k);
      InSomeSnoc(init, r, k);
    }
  }

  predicate StartsAt(rs: seq<Round>, k: int) { exists i :: 0 <= i < |rs| && rs[i].start == k }
  predicate EndsAt(rs: seq<Round>, k: int) { exists i :: 0 <= i < |rs| && rs[i].end == k }

  lemma {:induction false} SpansOnBoundaries(selected: seq<Round>)
    ensures forall x | 0 <= x < |Spans(selected)| ::
              StartsAt(selected, Spans(selected)[x].start) && EndsAt(selected, Spans(selected)[x].end)
  {
    if selected != [] {
      var init, r := selected[..|selected| - 1], selected[|selected| - 1];
      SpansOnBoundaries(init);
      var out := Spans(init);
      forall k: int | StartsAt(init, k) || k == r.start ensures StartsAt(selected, k) {
        if StartsAt(init, k) {
          var i :| 0 <= i < |init| && init[i].start == k;
          assert selected[i].start == k;
        }
      }
      forall k: int | EndsAt(init, k) || k == r.end ensures EndsAt(selected, k) {
        if EndsAt(init, k) {
          var i :| 0 <= i < |init| && init[i].end == k;
          assert selected[i].end == k;
        }
      }
    }
  }

  /** Spans are the maximal contiguous runs of the selected rounds: they hold the
      same messages, keep a gap between them, and start and end where rounds do. */
  lemma {:induction false} SpansAreMaximalRuns(selected: seq<Round>)
    requires Ascending(selected)
    ensures Gapped(Spans(selected))
    ensures forall k: int :: InSome(Spans(selected), k) <==> InSome(selected, k)
    ensures forall x | 0 <= x < |Spans(selected)| ::
              StartsAt(selected, Spans(selected)[x].start) && EndsAt(selected, Spans(selected)[x].end)
  {
    SpansGapped(selected);
    SpansOnBoundaries(selected);
    forall k: int ensures InSome(Spans(selected), k) <==> InSome(selected, k) {
      SpansHoldTheSame(selected, k);
    }
  }

  // --- the plan ------------------------------------------------------------------------

  /** One stretch to summarize: the sequences it covers and its message count. */
  datatype Job = Job(first: nat, last: nat, messages: nat)

  function JobsOf(spans: seq<Round>, origins: seq<nat>): seq<Job>
    requires Within(spans, 0, |origins| - 1)
  {
    seq(|spans|, x requires 0 <= x < |spans| =>
      Job(origins[spans[x].start], origins[spans[x].end], spans[x].end - spans[x].start + 1))
  }

  function DropHiddenJobs(jobs: seq<Job>, hidden: Hidden): seq<Job> {
    if jobs == [] then []
    else (if hidden.Intersects(jobs[0].first, jobs[0].last) then [] else [jobs[0]])
         + DropHiddenJobs(jobs[1..], hidden)
  }

  predicate SourceLess(spans: seq<Round>, origins: seq<nat>)
    requires Within(spans, 0, |origins| - 1)
  {
    exists x :: 0 <= x < |spans| && (origins[spans[x].start] == 0 || origins[spans[x].end] == 0)
  }

  /** The spans a plan would summarize, before any is refused or dropped. */
  function PlanSpans(ms: seq<Message>, contextTokens: nat, policy: Policy): (spans: seq<Round>)
    ensures Within(spans, 0, |ms| - 1)
  {
    var middle := EligibleMiddle(ms, policy.keepHead, policy.keepTail);
    if middle.None? then [] else
    var rounds := Rounds(ms, middle.value.0, middle.value.1);
    var selected := SelectFrom(ms, rounds, SatSub(contextTokens, policy.target), 0);
    PlanSpansInRange(ms, middle.value.0, middle.value.1, SatSub(contextTokens, policy.target));
    Spans(selected)
  }

  lemma {:induction false} PlanSpansInRange(ms: seq<Message>, lo: nat, hi: nat, need: nat)
    requires hi < |ms|
    ensures var spans := Spans(SelectFrom(ms, Rounds(ms, lo, hi), need, 0));
            Within(spans, lo, hi)
  {
    var rounds := Rounds(ms, lo, hi);
    var selected := SelectFrom(ms, rounds, need, 0);
    RoundsPartition(ms, lo, hi);
    SelectFromIsSelection(ms, rounds, need, 0);
    assert selected == rounds[..|selected|];
    SpansAreMaximalRuns(selected);
    forall x | 0 <= x < |Spans(selected)| ensures lo <= Spans(selected)[x].start <= Spans(selected)[x].end <= hi {
      var i :| 0 <= i < |selected| && selected[i].start == Spans(selected)[x].start;
      assert rounds[i].Holds(rounds[i].start) && InSome(rounds, rounds[i].start);
      var j :| 0 <= j < |selected| && selected[j].end == Spans(selected)[x].end;
      assert rounds[j].Holds(rounds[j].end) && InSome(rounds, rounds[j].end);
    }
  }

  function PlanJobs(ms: seq<Message>, origins: seq<nat>, contextTokens: nat,
                    policy: Policy, hidden: Hidden): Option<seq<Job>>
  {
    if |origins| != |ms| then None else
    var spans := PlanSpans(ms, contextTokens, policy);
    if spans == [] || SourceLess(spans, origins) then None else
    var jobs := DropHiddenJobs(JobsOf(spans, origins), hidden);
    if jobs == [] then None else Some(jobs)
  }

  // --- the plan, described without computing it -----------------------------------------

  /** The middle reaches from the first message behind the kept head that is no result to
      the last one before the kept tail whose next is none. */
  ghost predicate IsMiddle(ms: seq<Message>, keepHead: nat, keepTail: nat, lo: int, hi: int) {
    && 1 + keepHead <= lo <= hi < |ms| - keepTail
    && (forall k | 1 + keepHead <= k < lo :: IsTool(ms, k)) && !IsTool(ms, lo)
    && (forall k | hi + 1 < k <= |ms| - keepTail :: IsTool(ms, k)) && !IsTool(ms, hi + 1)
  }

  lemma {:induction false} MiddleIff(ms: seq<Message>, keepHead: nat, keepTail: nat, lo: nat, hi: nat)
    ensures EligibleMiddle(ms, keepHead, keepTail) == Some((lo, hi)) <==> IsMiddle(ms, keepHead, keepTail, lo, hi)
  {
    if |ms| >= keepTail + 1 {
      var last := |ms| - (keepTail + 1);
      var a := SkipTools(ms, 1 + keepHead, last);
      var b := PullBack(ms, a, last);
      var edges := [IsTool(ms, a), IsTool(ms, lo), IsTool(ms, b + 1), IsTool(ms, hi + 1)];
    }
  }

  /** The rounds of a stretch: its non-user messages in order, a call with the results
      behind it, anything else alone. */
  ghost predicate AreRounds(ms: seq<Message>, lo: int, hi: int, rounds: seq<Round>) {
    && 0 <= lo && hi < |ms| && Ascending(rounds)
    && (forall k: int :: InSome(rounds, k) <==> lo <= k <= hi && !ms[k].User?)
    && forall x | 0 <= x < |rounds| :: Whole(ms, rounds[x], hi)
  }

  /** The first `n` rounds bring the context to its target, or are all there are; one
      fewer would not. */
  ghost predicate Suffice(ms: seq<Message>, rounds: seq<Round>, context: nat, target: nat, n: nat) {
    && n <= |rounds|
    && (context - Shed(ms, rounds[..n]) <= target || n == |rounds|)
    && (n > 0 ==> context - Shed(ms, rounds[..n - 1]) > target)
  }

  /** The runs of contiguous messages the rounds hold. */
  ghost predicate AreRuns(rounds: seq<Round>, spans: seq<Round>) {
    Gapped(spans) && forall k: int :: InSome(spans, k) <==> InSome(rounds, k)
  }

  /** What is to be summarized, before anything is refused for its sources. */
  ghost predicate Shedding(ms: seq<Message>, context: nat, policy: Policy, spans: seq<Round>) {
    spans != [] &&
    exists lo: nat, hi: nat, rounds, n: nat ::
      && IsMiddle(ms, policy.keepHead, policy.keepTail, lo, hi) && AreRounds(ms, lo, hi, rounds)
      && Suffice(ms, rounds, context, policy.target, n) && AreRuns(rounds[..n], spans)
  }

  lemma {:induction false} RoundsAre(ms: seq<Message>, lo: nat, hi: nat)
    requires hi < |ms|
    ensures AreRounds(ms, lo, hi, Rounds(ms, lo, hi))
  {
    RoundsPartition(ms, lo, hi);
    RoundsWhole(ms, lo, hi);
    hide Rounds, Ascending, InSome, Whole;
  }

  /** Rounds that hold the same messages are the same. */
  lemma {:induction false} RoundsUnique(ms: seq<Message>, lo: int, hi: int, a: seq<Round>, b: seq<Round>)
    requires AreRounds(ms, lo, hi, a) && AreRounds(ms, lo, hi, b)
    ensures a == b
  {
    hide AreRounds;
    RoundsPrefix(ms, lo, hi, a, b, |a|);
    RoundsPrefix(ms, lo, hi, b, a, |b|);
    assert a == a[..|a|] && b == b[..|b|];
  }

  /** What the next of `a` holds is held by `b` behind what they share. */
  lemma {:induction false} HeldBehind(a: seq<Round>, b: seq<Round>, n: nat, k: int) returns (y: nat)
    requires Ascending(a) && Ascending(b) && n < |a| && n <= |b| && a[..n] == b[..n]
    requires (forall k: int :: InSome(a, k) <==> InSome(b, k)) && a[n].Holds(k)
    ensures n <= y < |b| && b[y].Holds(k) && b[n].start <= k
  {
    assert InSome(a, k);
    forall x | 0 <= x < n ensures !b[x].Holds(k) { assert a[..n][x] == b[..n][x]; }
    y :| 0 <= y < |b| && b[y].Holds(k);
  }

  /** So they go on at the same place. */
  lemma {:induction false} NextStartsAlike(a: seq<Round>, b: seq<Round>, n: nat)
    requires Ascending(a) && Ascending(b) && n < |a| && n <= |b| && a[..n] == b[..n]
    requires forall k: int :: InSome(a, k) <==> InSome(b, k)
    ensures n < |b| && a[n].start == b[n].start
  {
    hide InSome;
    var y := HeldBehind(a, b, n, a[n].start);
    var x := HeldBehind(b, a, n, b[n].start);
  }

  lemma {:induction false} RoundsAgree(ms: seq<Message>, lo: int, hi: int, a: seq<Round>, b: seq<Round>)
    requires AreRounds(ms, lo, hi, a) && AreRounds(ms, lo, hi, b)
    ensures Ascending(a) && Ascending(b) && forall k: int :: InSome(a, k) <==> InSome(b, k)
    ensures forall n | 0 <= n < |a| && n < |b| && a[n].start == b[n].start :: a[n] == b[n]
  {
    forall n | 0 <= n < |a| && n < |b| && a[n].start == b[n].start ensures a[n] == b[n] { SameRound(ms, hi, a[n], b[n]); }
    hide InSome, Whole, Ascending;
  }

  lemma {:induction false} RoundsPrefix(ms: seq<Message>, lo: int, hi: int, a: seq<Round>, b: seq<Round>, n: nat)
    requires AreRounds(ms, lo, hi, a) && AreRounds(ms, lo, hi, b) && n <= |a|
    ensures n <= |b| && a[..n] == b[..n]
  {
    hide AreRounds, InSome, Ascending;
    if n > 0 {
      RoundsPrefix(ms, lo, hi, a, b, n - 1);
      RoundsAgree(ms, lo, hi, a, b);
      NextStartsAlike(a, b, n - 1);
      assert a[..n] == a[..n - 1] + [a[n - 1]] && b[..n] == b[..n - 1] + [b[n - 1]];
    }
  }

  lemma {:induction false} SameRound(ms: seq<Message>, hi: int, a: Round, b: Round)
    requires Whole(ms, a, hi) && Whole(ms, b, hi) && a.start == b.start
    ensures a == b
  {}

  /** Runs that hold the same messages are the same. */
  lemma {:induction false} RunsUnique(a: seq<Round>, b: seq<Round>)
    requires Gapped(a) && Gapped(b) && forall k: int :: InSome(a, k) <==> InSome(b, k)
    ensures a == b
  {
    RunsPrefix(a, b, |a|);
    RunsPrefix(b, a, |b|);
    assert a == a[..|a|] && b == b[..|b|];
  }

  lemma {:induction false} RunsPrefix(a: seq<Round>, b: seq<Round>, n: nat)
    requires Gapped(a) && Gapped(b) && (forall k: int :: InSome(a, k) <==> InSome(b, k)) && n <= |a|
    ensures n <= |b| && a[..n] == b[..n]
  {
    if n > 0 {
      RunsPrefix(a, b, n - 1);
      GappedAscends(a);
      GappedAscends(b);
      hide InSome, Ascending, Gapped;
      NextStartsAlike(a, b, n - 1);
      RunEnds(a, b, n - 1);
      RunEnds(b, a, n - 1);
      assert a[..n] == a[..n - 1] + [a[n - 1]] && b[..n] == b[..n - 1] + [b[n - 1]];
    }
  }

  lemma {:induction false} GappedAscends(a: seq<Round>)
    requires Gapped(a)
    ensures Ascending(a)
  {}

  lemma {:induction false} GapBehind(b: seq<Round>, n: nat)
    requires Gapped(b) && n < |b|
    ensures !InSome(b, b[n].end + 1) && b[n].start <= b[n].end
  {}

  lemma {:induction false} HoldsIn(a: seq<Round>, n: nat)
    requires n < |a|
    ensures forall k: int :: a[n].Holds(k) ==> InSome(a, k)
  {}

  /** Runs that begin alike end alike: neither goes on where the other has its gap. */
  lemma {:induction false} RunEnds(a: seq<Round>, b: seq<Round>, n: nat)
    requires Gapped(a) && Gapped(b) && n < |a| && n < |b| && a[n].start == b[n].start
    requires forall k: int :: InSome(a, k) <==> InSome(b, k)
    ensures a[n].end <= b[n].end
  {
    GapBehind(b, n);
    HoldsIn(a, n);
    hide InSome, Gapped;
    assert !InSome(a, b[n].end + 1);
  }

  lemma {:induction false} ShedFewer(ms: seq<Message>, rounds: seq<Round>, m: nat, n: nat)
    requires m <= n <= |rounds|
    ensures Shed(ms, rounds[..m]) <= Shed(ms, rounds[..n]) <= U32_MAX
    decreases n
  {
    if m < n {
      ShedFewer(ms, rounds, m, n - 1);
      assert rounds[..n][..n - 1] == rounds[..n - 1];
    } else if n > 0 {
      ShedFewer(ms, rounds, n - 1, n - 1);
    }
  }

  /** Only one number of rounds suffices, and it is the one selected. */
  lemma {:induction false} SufficeIff(ms: seq<Message>, rounds: seq<Round>, context: nat, target: nat, n: nat)
    ensures n <= |rounds| && SelectFrom(ms, rounds, SatSub(context, target), 0) == rounds[..n]
       <==> Suffice(ms, rounds, context, target, n)
  {
    var need := SatSub(context, target);
    SelectFromIsSelection(ms, rounds, need, 0);
    var picked := SelectFrom(ms, rounds, need, 0);
    hide SelectFrom, Shed;
    assert picked == rounds[..|picked|];
    if |picked| > 0 { assert Shed(ms, rounds[..|picked| - 1]) < need; }
    assert Suffice(ms, rounds, context, target, |picked|);
    if n <= |rounds| {
      var shed := Shed(ms, rounds[..n]);
      if |picked| < n { ShedFewer(ms, rounds, |picked|, n - 1); }
    }
  }

  /** The description fits exactly what the planner computes. */
  lemma {:induction false} SheddingIff(ms: seq<Message>, context: nat, policy: Policy, spans: seq<Round>)
    ensures Shedding(ms, context, policy, spans) <==> spans != [] && PlanSpans(ms, context, policy) == spans
  {
    var middle := EligibleMiddle(ms, policy.keepHead, policy.keepTail);
    if spans != [] && PlanSpans(ms, context, policy) == spans {
      var (lo, hi) := middle.value;
      var n := SpansFit(ms, context, policy, lo, hi);
    }
    if Shedding(ms, context, policy, spans) {
      var lo: nat, hi: nat, rounds, n: nat :|
        && IsMiddle(ms, policy.keepHead, policy.keepTail, lo, hi) && AreRounds(ms, lo, hi, rounds)
        && Suffice(ms, rounds, context, policy.target, n) && AreRuns(rounds[..n], spans);
      MiddleIff(ms, policy.keepHead, policy.keepTail, lo, hi);
      RoundsAre(ms, lo, hi);
      RoundsUnique(ms, lo, hi, rounds, Rounds(ms, lo, hi));
      var m := SpansFit(ms, context, policy, lo, hi);
      SufficeIff(ms, rounds, context, policy.target, n);
      SufficeIff(ms, rounds, context, policy.target, m);
      hide Suffice, AreRounds, IsMiddle;
      RunsUnique(spans, PlanSpans(ms, context, policy));
    }
  }

  lemma {:induction false} SelectedPrefix(ms: seq<Message>, rounds: seq<Round>, context: nat, target: nat) returns (n: nat)
    ensures n <= |rounds| && SelectFrom(ms, rounds, SatSub(context, target), 0) == rounds[..n]
    ensures Suffice(ms, rounds, context, target, n)
  {
    SelectFromIsSelection(ms, rounds, SatSub(context, target), 0);
    n := |SelectFrom(ms, rounds, SatSub(context, target), 0)|;
    hide SelectFrom, Shed, Suffice;
    SufficeIff(ms, rounds, context, target, n);
  }

  lemma {:induction false} RunsFit(rounds: seq<Round>, n: nat)
    requires Ascending(rounds) && n <= |rounds|
    ensures AreRuns(rounds[..n], Spans(rounds[..n]))
  {
    assert Ascending(rounds[..n]);
    hide Ascending, InSome, Spans;
    SpansAreMaximalRuns(rounds[..n]);
  }

  lemma {:induction false} SpansFit(ms: seq<Message>, context: nat, policy: Policy, lo: nat, hi: nat) returns (n: nat)
    requires EligibleMiddle(ms, policy.keepHead, policy.keepTail) == Some((lo, hi))
    ensures IsMiddle(ms, policy.keepHead, policy.keepTail, lo, hi) && AreRounds(ms, lo, hi, Rounds(ms, lo, hi))
    ensures Suffice(ms, Rounds(ms, lo, hi), context, policy.target, n)
    ensures AreRuns(Rounds(ms, lo, hi)[..n], PlanSpans(ms, context, policy))
  {
    hide EligibleMiddle, Rounds, SelectFrom, Suffice, IsMiddle, InSome, Ascending, Whole, AreRuns, Spans;
    var rounds := Rounds(ms, lo, hi);
    MiddleIff(ms, policy.keepHead, policy.keepTail, lo, hi);
    RoundsAre(ms, lo, hi);
    n := SelectedPrefix(ms, rounds, context, policy.target);
    RunsFit(rounds, n);
  }

  /** There is nothing to shed exactly when the context is at its target already, or the
      user said everything in the middle, or there is no middle. */
  lemma {:induction false} NothingToShedIff(ms: seq<Message>, context: nat, policy: Policy)
    ensures (forall spans :: !Shedding(ms, context, policy, spans)) <==>
              || context <= policy.target
              || forall lo: nat, hi: nat, k | IsMiddle(ms, policy.keepHead, policy.keepTail, lo, hi) && lo <= k <= hi :: ms[k].User?
  {
    var spans := PlanSpans(ms, context, policy);
    SheddingIff(ms, context, policy, spans);
    forall other | Shedding(ms, context, policy, other) ensures other == spans { SheddingIff(ms, context, policy, other); }
    var middle := EligibleMiddle(ms, policy.keepHead, policy.keepTail);
    forall lo: nat, hi: nat | IsMiddle(ms, policy.keepHead, policy.keepTail, lo, hi) ensures middle == Some((lo, hi)) {
      MiddleIff(ms, policy.keepHead, policy.keepTail, lo, hi);
    }
    if middle.Some? {
      var (lo, hi) := middle.value;
      var n := SpansFit(ms, context, policy, lo, hi);
      hide PlanSpans, EligibleMiddle, IsMiddle, Shedding;
      NothingPickedIff(ms, context, policy.target, lo, hi, n, spans);
    }
  }

  lemma {:induction false} NothingPickedIff(ms: seq<Message>, context: nat, target: nat, lo: nat, hi: nat, n: nat, spans: seq<Round>)
    requires hi < |ms| && AreRounds(ms, lo, hi, Rounds(ms, lo, hi)) && Suffice(ms, Rounds(ms, lo, hi), context, target, n)
    requires AreRuns(Rounds(ms, lo, hi)[..n], spans)
    ensures spans == [] <==> context <= target || forall k | lo <= k <= hi :: ms[k].User?
  {
    var rounds := Rounds(ms, lo, hi);
    hide Rounds, Whole;
    FirstHeld(rounds);
    FirstHeld(rounds[..n]);
    FirstHeld(spans);
    if n > 0 { ShedFewer(ms, rounds, 0, n - 1); }
  }

  /** A list of rounds is empty exactly when it holds nothing. */
  lemma {:induction false} FirstHeld(rs: seq<Round>)
    requires forall x | 0 <= x < |rs| :: rs[x].start <= rs[x].end
    ensures rs == [] <==> forall k: int :: !InSome(rs, k)
  {
    if rs != [] { assert InSome(rs, rs[0].start); }
  }

  /** Both ends of every span have a source in the log. */
  ghost predicate Rooted(spans: seq<Round>, origins: seq<nat>) {
    forall x | 0 <= x < |spans| ::
      spans[x].end < |origins| && spans[x].start < |origins| && origins[spans[x].start] > 0 && origins[spans[x].end] > 0
  }

  function JobOf(s: Round, origins: seq<nat>): Job
    requires s.start <= s.end < |origins|
  { Job(origins[s.start], origins[s.end], s.end - s.start + 1) }

  /** The span lies on the list and touches no hidden range. */
  ghost predicate Visible(spans: seq<Round>, origins: seq<nat>, hidden: Hidden, x: int) {
    && 0 <= x < |spans| && spans[x].start <= spans[x].end < |origins|
    && !hidden.Intersects(origins[spans[x].start], origins[spans[x].end])
  }

  ghost predicate Rises(kept: seq<nat>) { forall i, j | 0 <= i < j < |kept| :: kept[i] < kept[j] }

  ghost predicate JobsAt(spans: seq<Round>, origins: seq<nat>, kept: seq<nat>, jobs: seq<Job>) {
    && |kept| == |jobs|
    && forall i | 0 <= i < |kept| ::
         kept[i] < |spans| && spans[kept[i]].start <= spans[kept[i]].end < |origins| && jobs[i] == JobOf(spans[kept[i]], origins)
  }

  ghost predicate AreVisible(spans: seq<Round>, origins: seq<nat>, hidden: Hidden, kept: seq<nat>) {
    Rises(kept) && forall x: nat :: x in kept <==> Visible(spans, origins, hidden, x)
  }

  /** One job a span, in order, for the spans that touch no hidden range. */
  ghost predicate Shows(spans: seq<Round>, origins: seq<nat>, hidden: Hidden, jobs: seq<Job>) {
    exists kept: seq<nat> :: AreVisible(spans, origins, hidden, kept) && JobsAt(spans, origins, kept, jobs)
  }

  /** The plan in full: what it is made of, and when there is none. */
  ghost predicate Planned(ms: seq<Message>, origins: seq<nat>, context: nat, policy: Policy, hidden: Hidden,
                          plan: Option<seq<Job>>) {
    match plan
    case Some(jobs) =>
      && |origins| == |ms| && jobs != []
      && exists spans :: Shedding(ms, context, policy, spans) && Rooted(spans, origins) && Shows(spans, origins, hidden, jobs)
    case None =>
      || |origins| != |ms|
      || (forall spans :: !Shedding(ms, context, policy, spans))
      || exists spans :: Shedding(ms, context, policy, spans) && (!Rooted(spans, origins) || Shows(spans, origins, hidden, []))
  }

  lemma {:induction false} VisibleJobs(spans: seq<Round>, origins: seq<nat>, hidden: Hidden)
    requires Within(spans, 0, |origins| - 1)
    ensures Shows(spans, origins, hidden, DropHiddenJobs(JobsOf(spans, origins), hidden))
  {
    var kept := KeptSpans(spans, origins, hidden);
    hide AreVisible, JobsAt;
  }

  lemma {:induction false} KeptSpans(spans: seq<Round>, origins: seq<nat>, hidden: Hidden) returns (kept: seq<nat>)
    requires Within(spans, 0, |origins| - 1)
    ensures AreVisible(spans, origins, hidden, kept)
    ensures JobsAt(spans, origins, kept, DropHiddenJobs(JobsOf(spans, origins), hidden))
  {
    hide Hidden.Intersects;
    if spans == [] {
      kept := [];
    } else {
      var rest := KeptSpans(spans[1..], origins, hidden);
      var hides := hidden.Intersects(origins[spans[0].start], origins[spans[0].end]);
      kept := (if hides then [] else [0]) + Moved(rest);
      var jobs := DropHiddenJobs(JobsOf(spans[1..], origins), hidden);
      assert JobsOf(spans, origins)[1..] == JobsOf(spans[1..], origins);
      assert JobsOf(spans, origins)[0] == JobOf(spans[0], origins);
      assert DropHiddenJobs(JobsOf(spans, origins), hidden) == (if hides then [] else [JobOf(spans[0], origins)]) + jobs;
      hide JobsOf, DropHiddenJobs;
      VisibleCons(spans, origins, hidden, rest);
      JobsCons(spans, origins, rest, jobs, hides);
    }
  }

  function Moved(kept: seq<nat>): seq<nat> { seq(|kept|, i requires 0 <= i < |kept| => kept[i] + 1) }

  lemma {:induction false} MovedHas(kept: seq<nat>, x: nat)
    ensures x in Moved(kept) <==> x > 0 && (x - 1) in kept
  {
    if x > 0 && (x - 1) in kept {
      var i :| 0 <= i < |kept| && kept[i] == x - 1;
      assert Moved(kept)[i] == x;
    }
  }

  lemma {:induction false} VisibleCons(spans: seq<Round>, origins: seq<nat>, hidden: Hidden, rest: seq<nat>)
    requires spans != [] && spans[0].start <= spans[0].end < |origins| && AreVisible(spans[1..], origins, hidden, rest)
    ensures AreVisible(spans, origins, hidden,
                       (if hidden.Intersects(origins[spans[0].start], origins[spans[0].end]) then [] else [0]) + Moved(rest))
  {
    hide Hidden.Intersects;
    forall x: nat ensures x in Moved(rest) <==> x > 0 && Visible(spans, origins, hidden, x) {
      MovedHas(rest, x);
      if x > 0 { assert Visible(spans[1..], origins, hidden, x - 1) <==> Visible(spans, origins, hidden, x); }
    }
  }

  lemma {:induction false} JobsCons(spans: seq<Round>, origins: seq<nat>, rest: seq<nat>, jobs: seq<Job>, hides: bool)
    requires spans != [] && spans[0].start <= spans[0].end < |origins| && JobsAt(spans[1..], origins, rest, jobs)
    ensures JobsAt(spans, origins, (if hides then [] else [0]) + Moved(rest), (if hides then [] else [JobOf(spans[0], origins)]) + jobs)
  {
    hide JobOf;
    assert hides ==> [] + Moved(rest) == Moved(rest) && [] + jobs == jobs;
    forall i | 0 <= i < |rest| ensures jobs[i] == JobOf(spans[Moved(rest)[i]], origins) {
      assert spans[1..][rest[i]] == spans[Moved(rest)[i]];
    }
  }

  /** Which is what the planner returns. */
  lemma {:induction false} PlanJobsPlanned(ms: seq<Message>, origins: seq<nat>, context: nat, policy: Policy, hidden: Hidden)
    ensures Planned(ms, origins, context, policy, hidden, PlanJobs(ms, origins, context, policy, hidden))
  {
    if |origins| == |ms| {
      var spans := PlanSpans(ms, context, policy);
      forall other ensures Shedding(ms, context, policy, other) <==> other != [] && other == spans {
        SheddingIff(ms, context, policy, other);
      }
      hide PlanSpans, Shedding, Hidden.Intersects, Shows;
      VisibleJobs(spans, origins, hidden);
    }
  }

  /** No other plan fits the description. */
  lemma {:induction false} PlannedUnique(ms: seq<Message>, origins: seq<nat>, context: nat, policy: Policy, hidden: Hidden,
                                         a: Option<seq<Job>>, b: Option<seq<Job>>)
    requires Planned(ms, origins, context, policy, hidden, a) && Planned(ms, origins, context, policy, hidden, b)
    ensures a == b
  {
    forall p, q | Shedding(ms, context, policy, p) && Shedding(ms, context, policy, q) ensures p == q {
      SheddingIff(ms, context, policy, p);
      SheddingIff(ms, context, policy, q);
    }
    forall spans, p, q | Shows(spans, origins, hidden, p) && Shows(spans, origins, hidden, q) ensures p == q {
      ShowsUnique(spans, origins, hidden, p, q);
    }
    hide Shedding, Rooted, Shows;
  }

  lemma {:induction false} ShowsUnique(spans: seq<Round>, origins: seq<nat>, hidden: Hidden, p: seq<Job>, q: seq<Job>)
    requires Shows(spans, origins, hidden, p) && Shows(spans, origins, hidden, q)
    ensures p == q
  {
    var a: seq<nat> :| AreVisible(spans, origins, hidden, a) && JobsAt(spans, origins, a, p);
    var b: seq<nat> :| AreVisible(spans, origins, hidden, b) && JobsAt(spans, origins, b, q);
    hide Visible;
    RisingSame(a, b);
    hide AreVisible;
    assert forall i | 0 <= i < |p| :: p[i] == q[i];
  }

  lemma {:induction false} RisingSame(a: seq<nat>, b: seq<nat>)
    requires (forall i, j | 0 <= i < j < |a| :: a[i] < a[j]) && forall i, j | 0 <= i < j < |b| :: b[i] < b[j]
    requires forall x: nat :: x in a <==> x in b
    ensures a == b
  {
    NoneIn(a, b);
    NoneIn(b, a);
    if a != [] && b != [] {
      assert a[0] in b && b[0] in a;
      forall x: nat ensures x in a[1..] <==> x in b[1..] {
        assert a == [a[0]] + a[1..] && b == [b[0]] + b[1..];
      }
      RisingSame(a[1..], b[1..]);
      assert a == [a[0]] + a[1..] && b == [b[0]] + b[1..];
    }
  }

  method PlanCompaction(ms: seq<Message>, origins: seq<nat>, contextTokens: nat,
                        policy: Policy, hidden: Hidden) returns (plan: Option<seq<Job>>)
    ensures plan == PlanJobs(ms, origins, contextTokens, policy, hidden)
    ensures Planned(ms, origins, contextTokens, policy, hidden, plan)
  {
    PlanJobsPlanned(ms, origins, contextTokens, policy, hidden);
    hide Planned;
    if |origins| != |ms| { return None; }
    var middle := FindEligibleMiddle(ms, policy.keepHead, policy.keepTail);
    if middle.None? { return None; }
    var (lo, hi) := middle.value;
    var rounds := FindRounds(ms, lo, hi);
    RoundsPartition(ms, lo, hi);
    if rounds == [] { return None; }
    var selected := Select(ms, rounds, SatSub(contextTokens, policy.target));
    if selected == [] { return None; }
    var spans := FindSpans(selected);
    PlanSpansInRange(ms, lo, hi, SatSub(contextTokens, policy.target));
    if SourceLess(spans, origins) { return None; }
    var jobs := DropHiddenJobs(JobsOf(spans, origins), hidden);
    if jobs == [] { return None; }
    plan := Some(jobs);
  }
}
