/** Waiting for sub-agents: a predicate over the registry, a bell that may be missed,
    a backstop poll, a deadline and a stop button. */
module Delegation {
  import opened EventLog
  import opened Text

  const POLL: nat := 2000

  datatype State = Running | Done | Failed | Cancelled {
    predicate Terminal() { !Running? }
    predicate Broken() { Failed? || Cancelled? }
  }

  datatype Row = Row(child: string, state: State)

  datatype WaitFor =
    | Time
    | AllChildren
    | Children(ids: seq<string>)
    | AnyChild(ids: seq<string>)
    | FirstFailure(ids: seq<string>)

  function Named(ids: seq<string>, all: seq<Row>): seq<Row> {
    if all == [] then []
    else (if all[0].child in ids then [all[0]] else []) + Named(ids, all[1..])
  }

  /** The children a predicate concerns; naming none means all of them. */
  function Selected(w: WaitFor, all: seq<Row>): seq<Row> {
    if w.Time? then [] else if w.AllChildren? || w.ids == [] then all else Named(w.ids, all)
  }

  predicate AllTerminal(rows: seq<Row>) { forall i | 0 <= i < |rows| :: rows[i].state.Terminal() }
  predicate SomeTerminal(rows: seq<Row>) { exists i :: 0 <= i < |rows| && rows[i].state.Terminal() }
  predicate SomeBroken(rows: seq<Row>) { exists i :: 0 <= i < |rows| && rows[i].state.Broken() }

  /** The reason a wait ends on these rows; None while it goes on. */
  function Satisfied(w: WaitFor, all: seq<Row>): Option<string> {
    var rows := Selected(w, all);
    match w
    case Time => None
    case AllChildren => if AllTerminal(rows) then Some("all finished") else None
    case Children(_) => if AllTerminal(rows) then Some("all finished") else None
    case AnyChild(_) =>
      if rows == [] then Some("no such sub-agents")
      else if SomeTerminal(rows) then Some("one finished") else None
    case FirstFailure(_) =>
      if rows == [] then Some("no such sub-agents")
      else if SomeBroken(rows) then Some("a sub-agent failed")
      else if AllTerminal(rows) then Some("all finished") else None
  }

  /** Whether a wait is about this child; naming none means all of them. */
  predicate Concerns(w: WaitFor, row: Row) { !w.Time? && (w.AllChildren? || w.ids == [] || row.child in w.ids) }

  ghost predicate SomeConcerned(w: WaitFor, rows: seq<Row>) { exists i :: 0 <= i < |rows| && Concerns(w, rows[i]) }

  ghost predicate SomeFinished(w: WaitFor, rows: seq<Row>) {
    exists i :: 0 <= i < |rows| && Concerns(w, rows[i]) && !rows[i].state.Running?
  }

  ghost predicate NoneRunning(w: WaitFor, rows: seq<Row>) {
    forall i | 0 <= i < |rows| && Concerns(w, rows[i]) :: !rows[i].state.Running?
  }

  ghost predicate SomeFailed(w: WaitFor, rows: seq<Row>) {
    exists i :: 0 <= i < |rows| && Concerns(w, rows[i]) && (rows[i].state.Failed? || rows[i].state.Cancelled?)
  }

  /** What each wait is for, said of the rows as they are read. */
  ghost predicate Verdict(w: WaitFor, rows: seq<Row>, reason: Option<string>) {
    match w
    case Time => reason == None
    case AllChildren => reason == if NoneRunning(w, rows) then Some("all finished") else None
    case Children(_) => reason == if NoneRunning(w, rows) then Some("all finished") else None
    case AnyChild(_) =>
      reason == if !SomeConcerned(w, rows) then Some("no such sub-agents")
                else if SomeFinished(w, rows) then Some("one finished") else None
    case FirstFailure(_) =>
      reason == if !SomeConcerned(w, rows) then Some("no such sub-agents")
                else if SomeFailed(w, rows) then Some("a sub-agent failed")
                else if NoneRunning(w, rows) then Some("all finished") else None
  }

  lemma {:induction false} NamedHas(ids: seq<string>, all: seq<Row>, row: Row)
    ensures row in Named(ids, all) <==> row in all && row.child in ids
  {
    if all != [] {
      NamedHas(ids, all[1..], row);
      assert all == [all[0]] + all[1..];
    }
  }

  lemma {:induction false} SelectedHas(w: WaitFor, all: seq<Row>, row: Row)
    ensures row in Selected(w, all) <==> row in all && Concerns(w, row)
  {
    if !w.Time? && !w.AllChildren? && w.ids != [] { NamedHas(w.ids, all, row); }
  }

  /** What is tested of the selected rows is true of the rows concerned. */
  lemma {:induction false} SelectedMeans(w: WaitFor, all: seq<Row>)
    ensures var rows := Selected(w, all);
            && (rows == [] <==> !SomeConcerned(w, all)) && (AllTerminal(rows) <==> NoneRunning(w, all))
            && (SomeTerminal(rows) <==> SomeFinished(w, all)) && (SomeBroken(rows) <==> SomeFailed(w, all))
  {
    var rows := Selected(w, all);
    forall row ensures row in rows <==> row in all && Concerns(w, row) { SelectedHas(w, all, row); }
    hide Selected, Concerns;
    assert forall i | 0 <= i < |rows| :: rows[i] in rows;
    assert forall i | 0 <= i < |all| :: all[i] in all;
    assert rows == [] || rows[0] in rows;
  }

  /** Exactly one verdict fits, and it is the one computed. */
  lemma {:induction false} SatisfiedIff(w: WaitFor, rows: seq<Row>, reason: Option<string>)
    ensures Satisfied(w, rows) == reason <==> Verdict(w, rows, reason)
  {
    SelectedMeans(w, rows);
    hide Selected, NoneRunning, SomeConcerned, SomeFinished, SomeFailed, AllTerminal, SomeTerminal, SomeBroken;
  }

  // --- how rows change ------------------------------------------------------------------

  /** What the registry writes when a turn ends, whatever the row said before. */
  function Settle(stoppedBy: string, result: string): State {
    if stoppedBy == "cancelled" then Cancelled
    else if stoppedBy in {"error", "llm-error", "asked", "max-iterations"} then Failed
    else if Trim(result) == "" then Failed
    else Done
  }

  /** A turn counts as done exactly when it came to its own end with something to say. */
  lemma {:induction false} SettleIff(stoppedBy: string, result: string)
    ensures Settle(stoppedBy, result).Done? <==>
              Trim(result) != "" && stoppedBy !in {"cancelled", "error", "llm-error", "asked", "max-iterations"}
    ensures Settle(stoppedBy, result).Cancelled? <==> stoppedBy == "cancelled"
    ensures Settle(stoppedBy, result).Terminal()
  {}

  /** Stopping a child only changes a running one. */
  function MarkCancelled(s: State): State { if s.Terminal() then s else Cancelled }

  /** The same children, the finished ones still finished. */
  ghost predicate StayFinished(was: seq<Row>, is_: seq<Row>) {
    && |is_| == |was|
    && forall i | 0 <= i < |was| :: is_[i].child == was[i].child && (was[i].state.Terminal() ==> is_[i].state.Terminal())
  }

  /** The same children, what they finished as never revised. */
  ghost predicate Absorbing(was: seq<Row>, is_: seq<Row>) {
    StayFinished(was, is_) && forall i | 0 <= i < |was| && was[i].state.Terminal() :: is_[i] == was[i]
  }

  lemma {:induction false} NamedFollows(ids: seq<string>, was: seq<Row>, is_: seq<Row>)
    requires StayFinished(was, is_)
    ensures StayFinished(Named(ids, was), Named(ids, is_))
    ensures Absorbing(was, is_) ==> Absorbing(Named(ids, was), Named(ids, is_))
  {
    if was != [] {
      assert was == [was[0]] + was[1..] && is_ == [is_[0]] + is_[1..];
      NamedFollows(ids, was[1..], is_[1..]);
    }
  }

  lemma {:induction false} SelectedFollows(w: WaitFor, was: seq<Row>, is_: seq<Row>)
    requires StayFinished(was, is_)
    ensures StayFinished(Selected(w, was), Selected(w, is_))
    ensures Absorbing(was, is_) ==> Absorbing(Selected(w, was), Selected(w, is_))
  {
    if !w.Time? && !w.AllChildren? && w.ids != [] { NamedFollows(w.ids, was, is_); }
  }

  /** On a fixed set of children whose outcomes stand, a satisfied wait stays satisfied,
      and for the same reason. */
  lemma {:induction false} SatisfiedIsFinal(w: WaitFor, was: seq<Row>, is_: seq<Row>)
    requires Absorbing(was, is_) && Satisfied(w, was).Some?
    ensures Satisfied(w, is_) == Satisfied(w, was)
  {
    SelectedFollows(w, was, is_);
    var a, b := Selected(w, was), Selected(w, is_);
    if SomeTerminal(a) {
      var i :| 0 <= i < |a| && a[i].state.Terminal();
      assert b[i].state.Terminal();
    }
    if SomeBroken(a) {
      var i :| 0 <= i < |a| && a[i].state.Broken();
      assert b[i].state.Broken();
    }
  }

  /** Where an outcome may be revised, every predicate but `FirstFailure` still holds on;
      that one lapses exactly when no failure is left and something is still running. */
  lemma {:induction false} SatisfiedLapsesOnlyIf(w: WaitFor, was: seq<Row>, is_: seq<Row>)
    requires StayFinished(was, is_) && Satisfied(w, was).Some?
    ensures Satisfied(w, is_).None? <==>
              w.FirstFailure? && SomeBroken(Selected(w, was))
              && !SomeBroken(Selected(w, is_)) && !AllTerminal(Selected(w, is_))
  {
    SelectedFollows(w, was, is_);
    var a, b := Selected(w, was), Selected(w, is_);
    if SomeTerminal(a) {
      var i :| 0 <= i < |a| && a[i].state.Terminal();
      assert b[i].state.Terminal();
    }
    if b != [] && AllTerminal(a) { assert AllTerminal(b); }
  }

  /** And revising happens: a child stopped just before its turn ends well is first
      recorded as cancelled and then as done, and the failure is gone again. */
  lemma {:induction false} SettlingUndoesAFailure(result: string)
    requires Trim(result) != ""
    ensures var w := FirstFailure([]);
            var stopped := [Row("a", MarkCancelled(Running)), Row("b", Running)];
            var settled := [Row("a", Settle("stop", result)), Row("b", Running)];
            && StayFinished(stopped, settled)
            && Satisfied(w, stopped) == Some("a sub-agent failed") && Satisfied(w, settled).None?
  {
    var stopped := [Row("a", MarkCancelled(Running)), Row("b", Running)];
    var settled := [Row("a", Settle("stop", result)), Row("b", Running)];
    assert stopped[0].state.Broken();
    assert !settled[1].state.Terminal();
  }

  /** A registry that cannot be read counts as having no children, which ends every
      wait but a timed one. */
  lemma {:induction false} UnreadableEndsWait(w: WaitFor)
    ensures Satisfied(w, []).Some? <==> !w.Time?
  {}

  /** A sub-agent spawned meanwhile reopens a wait for all. */
  lemma {:induction false} GrowingSetReopens(rows: seq<Row>, spawned: Row)
    requires Satisfied(AllChildren, rows).Some? && spawned.state.Running?
    ensures Satisfied(AllChildren, rows + [spawned]).None?
  {
    assert (rows + [spawned])[|rows|] == spawned;
  }

  // --- the wait ----------------------------------------------------------------------------

  /** What the registry says at each moment. */
  type Registry = nat -> Result<seq<Row>, string>

  function Reading(registry: Registry, at: nat): seq<Row> {
    match registry(at) case Ok(rows) => rows case Err(_) => []
  }

  datatype WaitOutcome = Over(reason: string, children: seq<Row>, timedOut: bool) | StoppedByUser

  ghost predicate SatisfiedFrom(w: WaitFor, registry: Registry, since: nat) {
    forall t: nat :: t >= since ==> !Verdict(w, Reading(registry, t), None)
  }

  /** Every reading from then on succeeds, on the same children and with no outcome
      revised. */
  ghost predicate AbsorbsFrom(registry: Registry, since: nat) {
    && (forall t: nat :: t >= since ==> registry(t).Ok?)
    && forall t: nat, u: nat :: since <= t && u == t + 1 ==> Absorbing(Reading(registry, t), Reading(registry, u))
  }

  lemma {:induction false} AbsorbingStays(registry: Registry, since: nat, t: nat)
    requires AbsorbsFrom(registry, since) && since <= t
    ensures Absorbing(Reading(registry, since), Reading(registry, t))
    decreases t
  {
    if since < t {
      AbsorbingStays(registry, since, t - 1);
      assert Absorbing(Reading(registry, t - 1), Reading(registry, t));
    }
  }

  /** So what satisfies such a wait once satisfies it for good. */
  lemma {:induction false} SatisfiedForGood(w: WaitFor, registry: Registry, since: nat)
    requires AbsorbsFrom(registry, since) && !Verdict(w, Reading(registry, since), None)
    ensures SatisfiedFrom(w, registry, since)
  {
    SatisfiedIff(w, Reading(registry, since), None);
    forall t: nat | t >= since ensures !Verdict(w, Reading(registry, t), None) {
      AbsorbingStays(registry, since, t);
      SatisfiedIsFinal(w, Reading(registry, since), Reading(registry, t));
      SatisfiedIff(w, Reading(registry, t), None);
    }
  }

  /** Reads, then sleeps until a ring that is not lost, the backstop or a stop, over
      and over.  `rings` bounds the rings that wake it; which arrive, and when, is open. */
  method Wait(w: WaitFor, registry: Registry, start: nat, timeout: nat, cap: nat, cancelAt: Option<nat>, rings: nat)
    returns (r: WaitOutcome, end: nat)
    ensures start <= end <= start + Min(timeout, cap)
    ensures r.Over? && !r.timedOut ==>
              r.children == Reading(registry, end) && Verdict(w, r.children, Some(r.reason))
    ensures r.Over? && r.timedOut ==>
              r.children == Reading(registry, end) && Verdict(w, r.children, None) && end == start + Min(timeout, cap)
    ensures r.StoppedByUser? ==> cancelAt.Some? && cancelAt.value <= end
    ensures cancelAt.Some? ==> end <= Max(start, cancelAt.value)
    ensures !w.Time? ==> forall since: nat :: SatisfiedFrom(w, registry, since) ==> end <= Max(start, since + POLL)
    ensures !w.Time? ==> forall since: nat ::
              AbsorbsFrom(registry, since) && !Verdict(w, Reading(registry, since), None) ==> end <= Max(start, since + POLL)
    ensures !Verdict(w, Reading(registry, start), None) ==> end == start && r.Over? && !r.timedOut
    ensures r.StoppedByUser? ==> Min(timeout, cap) > 0
    ensures registry(start).Err? && !w.Time? ==> end == start && r.Over? && r.children == [] && !r.timedOut
  {
    forall since: nat | AbsorbsFrom(registry, since) && !Verdict(w, Reading(registry, since), None)
      ensures SatisfiedFrom(w, registry, since) {
      SatisfiedForGood(w, registry, since);
    }
    UnreadableEndsWait(w);
    hide SatisfiedFrom, AbsorbsFrom, Satisfied, Verdict;
    var deadline := start + Min(timeout, cap);
    var now, left := start, rings;
    ghost var unsatisfied: Option<nat> := None;
    while true
      invariant start <= now <= deadline
      invariant cancelAt.Some? ==> now <= Max(start, cancelAt.value)
      invariant unsatisfied.None? ==> now == start
      invariant unsatisfied.Some? ==> (w.Time? || registry(start).Ok?) && Verdict(w, Reading(registry, start), None)
      invariant unsatisfied.Some? ==> forall since: nat :: SatisfiedFrom(w, registry, since) ==> unsatisfied.value < since
      invariant unsatisfied.Some? && !w.Time? ==> now <= unsatisfied.value + POLL
      decreases deadline - now, left
    {
      var children := Reading(registry, now);
      var reason := Satisfied(w, children);
      SatisfiedIff(w, children, reason);
      if reason.Some? { return Over(reason.value, children, false), now; }
      if now >= deadline { return Over("timeout", children, true), now; }
      unsatisfied := Some(now);
      NotYet(w, registry, now);
      var slice: nat := if w.Time? then deadline - now else Min(POLL, deadline - now);
      var rung: bool := *;
      var early: nat := Ringing(slice);
      rung := rung && left > 0;
      var wake := now + (if rung then early else slice);
      if cancelAt.Some? && cancelAt.value <= wake {
        var stop: nat := Max(now, cancelAt.value);
        // Two branches ready at once are settled by chance.
        var chosen: bool := *;
        if stop < wake || chosen { return StoppedByUser, stop; }
      }
      if rung { left := left - 1; }
      now := wake;
    }
  }

  lemma {:induction false} NotYet(w: WaitFor, registry: Registry, now: nat)
    requires Verdict(w, Reading(registry, now), None)
    ensures forall since: nat :: SatisfiedFrom(w, registry, since) ==> now < since
  {}

  /** When within the slice a ring comes. */
  method Ringing(slice: nat) returns (early: nat)
    ensures early <= slice
  {
    var x: int := *;
    early := Min(Max(x, 0), slice);
  }

  // --- stopping a child -----------------------------------------------------------------------

  datatype Child = Child(parent: string, state: State)

  datatype Effect = Marked(child: string) | Signalled(child: string) | Rang

  class Family {
    var rows: map<string, Child>
    var effects: seq<Effect>

    /** Marks first, then signals the turn, then rings: whoever the bell wakes already
        reads the child as finished. */
    method CancelChild(parent: string, child: string) returns (r: Result<Child, string>)
      modifies this
      ensures r.Ok? <==> child in old(rows) && old(rows)[child].parent == parent
      ensures r.Err? ==> rows == old(rows) && effects == old(effects)
      ensures r.Ok? ==>
                && r.value == old(rows)[child].(state := MarkCancelled(old(rows)[child].state)) && r.value.state.Terminal()
                && rows == old(rows)[child := r.value]
                && effects == old(effects) + [Marked(child), Signalled(child), Rang]
    {
      if child !in rows { return Err("`" + child + "` is not a sub-agent"); }
      var row := rows[child];
      if row.parent != parent { return Err("`" + child + "` is not one of this session's sub-agents"); }
      row := row.(state := MarkCancelled(row.state));
      rows := rows[child := row];
      effects := effects + [Marked(child)];
      effects := effects + [Signalled(child)];
      effects := effects + [Rang];
      r := Ok(row);
    }
  }

  // --- what the parent reads of an answer -------------------------------------------------------

  predicate IsBoundary(text: string, cut: nat) {
    cut == 0 || (text != [] && cut >= Utf8Bytes(text[0]) && IsBoundary(text[1..], cut - Utf8Bytes(text[0])))
  }

  /** The characters in front of a boundary. */
  function UpTo(text: string, cut: nat): (k: nat)
    requires IsBoundary(text, cut)
    ensures k <= |text| && ByteLength(text[..k]) == cut
  {
    if cut == 0 then 0
    else
      var k := UpTo(text[1..], cut - Utf8Bytes(text[0])) + 1;
      assert text[..k][1..] == text[1..][..k - 1];
      k
  }

  lemma {:induction false} PrefixEndsOnBoundary(text: string, k: nat)
    requires k <= |text|
    ensures IsBoundary(text, ByteLength(text[..k]))
    ensures k < |text| ==> ByteLength(text[..k]) < ByteLength(text[..k + 1])
  {
    if k > 0 {
      assert text[..k][1..] == text[1..][..k - 1];
      PrefixEndsOnBoundary(text[1..], k - 1);
      if k < |text| { assert text[..k + 1][1..] == text[1..][..k]; }
    } else if k < |text| {
      assert text[..1][1..] == [];
    }
  }

  function TruncationNotice(bytes: nat): string {
    "\n\n[the sub-agent's answer was " + Dec(bytes)
    + " bytes and is truncated here; open its transcript for the rest]"
  }

  /** `k` is the longest run of whole characters that fits. */
  ghost predicate Longest(text: string, k: nat, maxBytes: nat) {
    && k <= |text| && ByteLength(text[..k]) <= maxBytes
    && (k < |text| ==> ByteLength(text[..k + 1]) > maxBytes)
  }

  /** An answer too long is cut at the last character boundary that fits. */
  method ClampResult(text: string, maxBytes: nat) returns (out: string, ghost k: nat)
    ensures ByteLength(text) <= maxBytes ==> out == text
    ensures ByteLength(text) > maxBytes ==>
              Longest(text, k, maxBytes) && out == text[..k] + TruncationNotice(ByteLength(text))
  {
    k := 0;
    if ByteLength(text) <= maxBytes { return text, 0; }
    var cut: nat := maxBytes;
    while cut > 0 && !IsBoundary(text, cut)
      invariant cut <= maxBytes
      invariant forall c: nat | cut < c <= maxBytes :: !IsBoundary(text, c)
    {
      cut := cut - 1;
    }
    k := UpTo(text, cut);
    PrefixEndsOnBoundary(text, k);
    if k < |text| { PrefixEndsOnBoundary(text, k + 1); }
    out := text[..UpTo(text, cut)] + TruncationNotice(ByteLength(text));
  }
}
