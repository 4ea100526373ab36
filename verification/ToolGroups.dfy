/** The pinned tool groups of a conversation.

    The pin is written by others too, so every reading repairs it; routing happens
    once, and a search may only add. */
module ToolGroups {
  import opened EventLog
  import opened Text

  datatype Group = Group(id: string, alwaysOn: bool)

  /** The build's table and the operator's denials; nothing denies `core`. */
  datatype Policy = Policy(table: seq<Group>, denied: set<string>) {
    predicate Knows(id: string) { exists i :: 0 <= i < |table| && table[i].id == id }
    predicate Denies(id: string) { id != "core" && id in denied }
    predicate Admissible(id: string) { Knows(id) && !Denies(id) }
    predicate AlwaysOn(id: string) { exists i :: 0 <= i < |table| && table[i].id == id && table[i].alwaysOn }
  }

  /** The table names each group once, without surrounding blanks, and `core` is always on. */
  ghost predicate Sane(p: Policy) {
    && (forall i, j | 0 <= i < j < |p.table| :: p.table[i].id != p.table[j].id)
    && (forall i | 0 <= i < |p.table| :: p.table[i].id != "" && Trim(p.table[i].id) == p.table[i].id)
    && p.AlwaysOn("core")
  }

  /** The table's ids among `ids`, in table order. */
  function Ordered(table: seq<Group>, ids: seq<string>): seq<string> {
    if table == [] then []
    else (if table[0].id in ids then [table[0].id] else []) + Ordered(table[1..], ids)
  }

  // --- what a pin means --------------------------------------------------------------

  /** The pin names some group the table knows and the policy admits. */
  ghost predicate Usable(p: Policy, pin: seq<string>) {
    exists i :: 0 <= i < |pin| && p.Admissible(Trim(pin[i]))
  }

  /** Exactly the groups a usable pin stands for. */
  ghost predicate StandsFor(p: Policy, pin: seq<string>, id: string) {
    p.Admissible(id) && (p.AlwaysOn(id) || exists i :: 0 <= i < |pin| && Trim(pin[i]) == id)
  }

  /** Where the table lists a group. */
  function Place(table: seq<Group>, id: string): nat {
    if table == [] || table[0].id == id then 0 else 1 + Place(table[1..], id)
  }

  ghost predicate RisesIn(table: seq<Group>, ids: seq<string>) {
    forall a, b | 0 <= a < b < |ids| :: Place(table, ids[a]) < Place(table, ids[b])
  }

  /** `ids` in the order of the table, each once. */
  ghost predicate TableOrdered(p: Policy, ids: seq<string>) {
    RisesIn(p.table, ids)
  }

  lemma {:induction false} OrderedHas(table: seq<Group>, ids: seq<string>, id: string)
    ensures id in Ordered(table, ids) <==> id in ids && exists i :: 0 <= i < |table| && table[i].id == id
  {
    if table != [] {
      OrderedHas(table[1..], ids, id);
      assert table == [table[0]] + table[1..];
      if i :| 0 <= i < |table| && table[i].id == id {
        if i > 0 { assert table[1..][i - 1].id == id; }
      }
      if i :| 0 <= i < |table[1..]| && table[1..][i].id == id { assert table[i + 1].id == id; }
    }
  }

  lemma {:induction false} OrderedRises(table: seq<Group>, ids: seq<string>)
    requires forall i, j | 0 <= i < j < |table| :: table[i].id != table[j].id
    ensures RisesIn(table, Ordered(table, ids))
  {
    if table != [] {
      OrderedRises(table[1..], ids);
      var t := Ordered(table[1..], ids);
      forall a | 0 <= a < |t| ensures Place(table, t[a]) == 1 + Place(table[1..], t[a]) {
        assert t[a] in t;
        OrderedHas(table[1..], ids, t[a]);
        var i :| 0 <= i < |table[1..]| && table[1..][i].id == t[a];
        assert table[0].id != table[i + 1].id;
      }
      RisesBehind(table, t);
      assert [] + t == t;
    }
  }

  lemma {:induction false} RisesBehind(table: seq<Group>, t: seq<string>)
    requires table != [] && RisesIn(table[1..], t)
    requires forall a | 0 <= a < |t| :: Place(table, t[a]) == 1 + Place(table[1..], t[a])
    ensures RisesIn(table, t) && RisesIn(table, [table[0].id] + t)
  {}

  lemma {:induction false} OrderedIsOrdered(p: Policy, ids: seq<string>)
    requires Sane(p)
    ensures TableOrdered(p, Ordered(p.table, ids))
  {
    OrderedRises(p.table, ids);
  }

  /** What a reading makes of a pin, described without the repair. */
  ghost predicate Reads(p: Policy, pin: Option<seq<string>>, r: Option<seq<string>>) {
    && (r.Some? <==> pin.Some? && Usable(p, pin.value))
    && (r.Some? ==> TableOrdered(p, r.value) && forall id :: id in r.value <==> StandsFor(p, pin.value, id))
  }

  /** The usable ids of a pin, in its own order. */
  function Picked(p: Policy, raw: seq<string>): seq<string> {
    if raw == [] then []
    else Picked(p, raw[..|raw| - 1])
         + (var id := Trim(raw[|raw| - 1]); if id != "" && p.Admissible(id) then [id] else [])
  }

  lemma {:induction false} PickedHas(p: Policy, raw: seq<string>, id: string)
    requires Sane(p)
    ensures id in Picked(p, raw) <==> p.Admissible(id) && exists i :: 0 <= i < |raw| && Trim(raw[i]) == id
  {
    if raw != [] {
      var n := |raw| - 1;
      PickedHas(p, raw[..n], id);
      if i :| 0 <= i < n && Trim(raw[..n][i]) == id { assert Trim(raw[i]) == id; }
      if i :| 0 <= i < |raw| && Trim(raw[i]) == id {
        if i < n { assert Trim(raw[..n][i]) == id; }
      }
    }
  }

  /** Keeps what the table knows and the policy admits, adds the always-on groups it
      lacks, and sorts; a pin that names nothing usable counts as none. */
  method RepairPin(p: Policy, raw: seq<string>) returns (r: Option<seq<string>>)
    requires Sane(p)
    ensures Reads(p, Some(raw), r)
  {
    var ids: seq<string> := [];
    for i := 0 to |raw|
      invariant ids == Picked(p, raw[..i])
    {
      assert raw[..i + 1][..i] == raw[..i];
      var id := Trim(raw[i]);
      if id != "" && p.Admissible(id) { ids := ids + [id]; }
    }
    assert raw[..|raw|] == raw;
    forall id ensures id in ids <==> p.Admissible(id) && exists i :: 0 <= i < |raw| && Trim(raw[i]) == id {
      PickedHas(p, raw, id);
    }
    if ids == [] { return None; }
    assert ids[0] in ids;
    ids := AddAlwaysOn(p, ids);
    r := Some(Ordered(p.table, ids));
    OrderedIsOrdered(p, ids);
    forall id ensures id in r.value <==> StandsFor(p, raw, id) { OrderedHas(p.table, ids, id); }
  }

  method AddAlwaysOn(p: Policy, ids0: seq<string>) returns (ids: seq<string>)
    ensures forall id :: id in ids <==> id in ids0 || (p.AlwaysOn(id) && !p.Denies(id))
  {
    ids := ids0;
    for i := 0 to |p.table|
      invariant forall id :: id in ids <==>
                  id in ids0 || (!p.Denies(id) && exists k :: 0 <= k < i && p.table[k].id == id && p.table[k].alwaysOn)
    {
      var g := p.table[i];
      if g.alwaysOn && !p.Denies(g.id) && g.id !in ids { ids := ids + [g.id]; }
    }
  }

  /** Two readings of pins standing for the same groups agree. */
  lemma {:induction false} ReadingIsUnique(p: Policy, pin: Option<seq<string>>, r: Option<seq<string>>, q: Option<seq<string>>)
    requires Reads(p, pin, r) && Reads(p, pin, q)
    ensures r == q
  {
    if r.Some? { SameOrdered(p, r.value, q.value); }
  }

  lemma {:induction false} SameOrdered(p: Policy, a: seq<string>, b: seq<string>)
    requires TableOrdered(p, a) && TableOrdered(p, b) && forall id :: id in a <==> id in b
    ensures a == b
  {
    NoneIn(a, b);
    NoneIn(b, a);
    if a != [] && b != [] {
      FirstAgrees(p, a, b);
      forall id ensures id in a[1..] <==> id in b[1..] {
        RestHas(p, a, id);
        RestHas(p, b, id);
      }
      TailOrdered(p, a);
      TailOrdered(p, b);
      SameOrdered(p, a[1..], b[1..]);
      assert a == [a[0]] + a[1..] && b == [b[0]] + b[1..];
    }
  }

  lemma {:induction false} TailOrdered(p: Policy, a: seq<string>)
    requires a != [] && TableOrdered(p, a)
    ensures TableOrdered(p, a[1..])
  {}

  lemma {:induction false} RestHas(p: Policy, a: seq<string>, id: string)
    requires a != [] && TableOrdered(p, a)
    ensures id in a[1..] <==> id in a && id != a[0]
  {
    if id in a && id != a[0] {
      var k :| 0 <= k < |a| && a[k] == id;
      assert a[1..][k - 1] == id;
    }
  }

  lemma {:induction false} FirstAgrees(p: Policy, a: seq<string>, b: seq<string>)
    requires TableOrdered(p, a) && TableOrdered(p, b) && a != [] && b != []
    requires a[0] in b && b[0] in a
    ensures a[0] == b[0]
  {}

  // --- a session ------------------------------------------------------------------------

  class Session {
    const policy: Policy
    /** The pin as stored, line by line. */
    var pin: Option<seq<string>>

    constructor (policy: Policy, pin: Option<seq<string>>)
      ensures this.policy == policy && this.pin == pin
    {
      this.policy, this.pin := policy, pin;
    }

    method ReadPin() returns (r: Option<seq<string>>)
      requires Sane(policy)
      ensures Reads(policy, pin, r)
    {
      if pin.None? { return None; }
      r := RepairPin(policy, pin.value);
    }

    /** The groups a turn works with: the pin's, or without one every admitted group. */
    method Active() returns (ids: seq<string>)
      requires Sane(policy)
      ensures TableOrdered(policy, ids)
      ensures forall id :: id in ids <==> InForce(policy, pin, id)
    {
      var read := ReadPin();
      if read.Some? { return read.value; }
      var admitted := Admitted(policy);
      ids := Ordered(policy.table, admitted);
      OrderedIsOrdered(policy, admitted);
      forall id ensures id in ids <==> InForce(policy, pin, id) { OrderedHas(policy.table, admitted, id); }
    }

    /** Decides the set once and pins it.  `configured` and `skills` name groups in the
        order their evidence came; `hits` are the groups the opening message matched. */
    method RouteOnce(configured: seq<string>, skills: seq<string>, hits: set<string>) returns (ids: seq<string>)
      requires Sane(policy)
      modifies this
      ensures old(pin).Some? && Usable(policy, old(pin).value) ==> pin == old(pin) && Reads(policy, pin, Some(ids))
      ensures old(pin).None? || !Usable(policy, old(pin).value) ==>
                && pin == Some(ids)
                && forall id :: id in ids <==>
                     policy.Admissible(id) && (policy.AlwaysOn(id) || id in configured || id in skills || id in hits)
      ensures Reads(policy, pin, Some(ids))
    {
      var read := ReadPin();
      if read.Some? { return read.value; }
      var active := AddAlwaysOn(policy, []);
      active := AddAdmissible(policy, active, configured);
      active := AddAdmissible(policy, active, skills);
      active := AddHits(policy, active, hits);
      ids := Ordered(policy.table, active);
      OrderedIsOrdered(policy, active);
      forall id ensures id in ids <==>
          policy.Admissible(id) && (policy.AlwaysOn(id) || id in configured || id in skills || id in hits) {
        OrderedHas(policy.table, active, id);
      }
      pin := Some(ids);
      PinnedReadsBack(policy, ids);
    }

    /** Adds what a search found.  A usable pin only grows; what was in force before stays
        in force exactly when there was one, or nothing was added, or every other
        admissible group is always on. */
    method Admit(found: seq<string>) returns (added: seq<string>)
      requires Sane(policy)
      modifies this
      ensures forall id :: id in added <==> id in found && policy.Admissible(id) && !BeforeAdmit(policy, old(pin), id)
      ensures forall i, j | 0 <= i < j < |added| :: added[i] != added[j]
      ensures added == [] ==> pin == old(pin)
      ensures added != [] ==>
                && pin.Some?
                && forall id :: InForce(policy, pin, id) <==> BeforeAdmit(policy, old(pin), id) || id in added
      ensures UsablePin(policy, old(pin)) ==>
                forall id :: InForce(policy, pin, id) <==> InForce(policy, old(pin), id) || id in added
      ensures Keeps(policy, old(pin), pin) <==>
                UsablePin(policy, old(pin)) || added == [] || LeavesNothing(policy, added)
    {
      ghost var was := pin;
      var read := ReadPin();
      var active;
      if read.Some? { active := read.value; } else { active := AddAlwaysOn(policy, []); }
      assert forall id :: id in active <==> BeforeAdmit(policy, pin, id);
      ghost var before := active;
      added := [];
      for i := 0 to |found|
        invariant forall id :: id in active <==> id in before || id in added
        invariant forall id :: id in added <==> id in found[..i] && policy.Admissible(id) && id !in before
        invariant forall a, b | 0 <= a < b < |added| :: added[a] != added[b]
      {
        var id := found[i];
        assert found[..i + 1] == found[..i] + [id];
        if policy.Admissible(id) && id !in active {
          active := active + [id];
          added := added + [id];
        }
      }
      assert found[..|found|] == found;
      if added != [] {
        var ids := Ordered(policy.table, active);
        OrderedIsOrdered(policy, active);
        forall id ensures id in ids <==> id in active { OrderedHas(policy.table, active, id); }
        pin := Some(ids);
        PinnedReadsBack(policy, ids);
      }
      AdmitKeepsIff(policy, was, pin, added);
    }
  }

  ghost predicate UsablePin(p: Policy, pin: Option<seq<string>>) { pin.Some? && Usable(p, pin.value) }

  /** Everything in force under the one pin is in force under the other. */
  ghost predicate Keeps(p: Policy, was: Option<seq<string>>, now: Option<seq<string>>) {
    forall id :: InForce(p, was, id) ==> InForce(p, now, id)
  }

  /** Every admissible group is always on or among those added. */
  ghost predicate LeavesNothing(p: Policy, added: seq<string>) {
    forall id :: p.Admissible(id) ==> p.AlwaysOn(id) || id in added
  }

  /** When a search takes nothing away. */
  lemma {:induction false} AdmitKeepsIff(p: Policy, was: Option<seq<string>>, now: Option<seq<string>>, added: seq<string>)
    requires Sane(p) && (added == [] ==> now == was)
    requires added != [] ==> forall id :: InForce(p, now, id) <==> BeforeAdmit(p, was, id) || id in added
    ensures UsablePin(p, was) ==> forall id :: InForce(p, now, id) <==> InForce(p, was, id) || id in added
    ensures Keeps(p, was, now) <==> UsablePin(p, was) || added == [] || LeavesNothing(p, added)
  {
    hide Usable, StandsFor;
    if !UsablePin(p, was) && added != [] {
      if Keeps(p, was, now) {
        forall id | p.Admissible(id) ensures p.AlwaysOn(id) || id in added {
          assert InForce(p, was, id);
          assert InForce(p, now, id);
        }
      }
    }
  }

  /** Whether a group is in force under a stored pin. */
  ghost predicate InForce(p: Policy, pin: Option<seq<string>>, id: string) {
    if pin.Some? && Usable(p, pin.value) then StandsFor(p, pin.value, id) else p.Admissible(id)
  }

  /** What a search starts from: without a usable pin, only the always-on groups. */
  ghost predicate BeforeAdmit(p: Policy, pin: Option<seq<string>>, id: string) {
    if pin.Some? && Usable(p, pin.value) then StandsFor(p, pin.value, id) else p.AlwaysOn(id) && !p.Denies(id)
  }

  method Admitted(p: Policy) returns (ids: seq<string>)
    ensures forall id :: id in ids <==> p.Admissible(id)
  {
    ids := [];
    for i := 0 to |p.table|
      invariant forall id :: id in ids <==> !p.Denies(id) && exists k :: 0 <= k < i && p.table[k].id == id
    {
      if !p.Denies(p.table[i].id) { ids := ids + [p.table[i].id]; }
    }
  }

  method AddAdmissible(p: Policy, ids0: seq<string>, more: seq<string>) returns (ids: seq<string>)
    ensures forall id :: id in ids <==> id in ids0 || (id in more && p.Admissible(id))
  {
    ids := ids0;
    for i := 0 to |more|
      invariant forall id :: id in ids <==> id in ids0 || (id in more[..i] && p.Admissible(id))
    {
      assert more[..i + 1] == more[..i] + [more[i]];
      if p.Admissible(more[i]) && more[i] !in ids { ids := ids + [more[i]]; }
    }
    assert more[..|more|] == more;
  }

  method AddHits(p: Policy, ids0: seq<string>, hits: set<string>) returns (ids: seq<string>)
    ensures forall id :: id in ids <==> id in ids0 || (id in hits && p.Admissible(id))
  {
    ids := ids0;
    for i := 0 to |p.table|
      invariant forall id :: id in ids <==>
                  id in ids0 || (id in hits && !p.Denies(id) && exists k :: 0 <= k < i && p.table[k].id == id)
    {
      var id := p.table[i].id;
      if !p.Denies(id) && id !in ids && id in hits { ids := ids + [id]; }
    }
  }

  // --- laws ------------------------------------------------------------------------------

  /** A set that holds the admitted always-on groups and nothing inadmissible reads
      back from the pin as itself. */
  lemma {:induction false} PinnedReadsBack(p: Policy, ids: seq<string>)
    requires Sane(p) && TableOrdered(p, ids) && (forall id :: id in ids ==> p.Admissible(id))
    requires forall id :: p.AlwaysOn(id) && !p.Denies(id) ==> id in ids
    ensures Reads(p, Some(ids), Some(ids))
  {
    forall i | 0 <= i < |ids| ensures Trim(ids[i]) == ids[i] {
      assert ids[i] in ids && p.Knows(ids[i]);
    }
    assert "core" in ids;
    var c :| 0 <= c < |ids| && ids[c] == "core";
    assert p.Admissible(Trim(ids[c]));
    forall id ensures id in ids <==> StandsFor(p, ids, id) {
      if id in ids {
        var i :| 0 <= i < |ids| && ids[i] == id;
        assert Trim(ids[i]) == id;
      }
    }
  }

  /** Whatever the pin holds, `core` is in force and nothing denied is. */
  lemma {:induction false} CoreAlwaysInForce(p: Policy, pin: Option<seq<string>>, id: string)
    requires Sane(p)
    ensures InForce(p, pin, "core")
    ensures InForce(p, pin, id) ==> p.Knows(id) && !p.Denies(id)
  {
    var i :| 0 <= i < |p.table| && p.table[i].id == "core" && p.table[i].alwaysOn;
    assert p.Knows("core");
  }

  /** Routing again, on any evidence, changes nothing and agrees with what is in force. */
  method RouteTwice(s: Session, c1: seq<string>, k1: seq<string>, h1: set<string>, c2: seq<string>, k2: seq<string>, h2: set<string>)
    returns (first: seq<string>, second: seq<string>, inForce: seq<string>)
    requires Sane(s.policy)
    modifies s
    ensures first == second == inForce
  {
    first := s.RouteOnce(c1, k1, h1);
    ghost var pinned := s.pin;
    second := s.RouteOnce(c2, k2, h2);
    ReadingIsUnique(s.policy, pinned, Some(first), Some(second));
    inForce := s.Active();
    SameOrdered(s.policy, inForce, first);
  }

  /** Without a usable pin every admitted group was in force; a search that finds
      anything then pins only the always-on groups and its finds, and every other
      group is withdrawn. */
  method SearchWithoutPinWithdraws(p: Policy, pin: Option<seq<string>>, found: seq<string>, wanted: string)
    returns (before: seq<string>, after: seq<string>)
    requires Sane(p) && !UsablePin(p, pin) && wanted in found && p.Admissible(wanted) && !p.AlwaysOn(wanted)
    ensures forall id :: id in before <==> p.Admissible(id)
    ensures forall id :: id in after <==> p.Admissible(id) && (p.AlwaysOn(id) || id in found)
  {
    var s := new Session(p, pin);
    before := s.Active();
    var added := s.Admit(found);
    assert wanted in added;
    after := s.Active();
  }
}
