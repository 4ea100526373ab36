/** Where a request is marked for the provider's prompt cache.

    A provider keeps an entry for every marked prefix and, on the next request,
    walks back at most twenty messages from each mark looking for one.  The marks
    are the last system message, two anchors on a fixed stride and the final message. */
module CacheBreakpoints {
  import opened EventLog
  import opened Text

  const MAX_BREAKPOINTS: nat := 4
  const LOOKBACK: nat := 20

  // --- requests ---------------------------------------------------------------------

  type Control = string

  /** One block of a message's content; a block that is no object cannot be marked. */
  datatype Block = Block(text: string, control: Option<Control>) | Bare

  datatype Content = Plain(text: string) | Blocks(blocks: seq<Block>) | Absent

  datatype Entry = Entry(role: string, content: Content)

  function ControlOf(ttl: string): Control { if ttl == "" then "5m" else ttl }

  /** Every lifetime but the default is spelled out. */
  lemma {:induction false} ControlIs(ttl: string)
    ensures ControlOf(ttl) == "5m" <==> ttl in {"", "5m"}
    ensures ttl !in {"", "5m"} ==> ControlOf(ttl) == ttl
  {}

  predicate Blank(text: string) { Trim(text) == "" }

  /** Whether a message has something a mark can hang on. */
  predicate Markable(m: Entry) {
    match m.content
    case Plain(text) => !Blank(text)
    case Blocks(blocks) => blocks != [] && blocks[|blocks| - 1].Block?
    case Absent => false
  }

  predicate Marked(m: Entry) {
    && m.content.Blocks? && m.content.blocks != []
    && var b := m.content.blocks[|m.content.blocks| - 1]; b.Block? && b.control.Some?
  }

  /** What the provider reads, marks aside. */
  function TextOf(m: Entry): seq<string> {
    match m.content
    case Plain(text) => [text]
    case Blocks(blocks) => seq(|blocks|, i requires 0 <= i < |blocks| => if blocks[i].Block? then blocks[i].text else "")
    case Absent => []
  }

  /** `m` marked: the same words, the mark on its last block. */
  ghost predicate MarkOf(m: Entry, m': Entry, ttl: string) {
    && m'.role == m.role && TextOf(m') == TextOf(m) && Marked(m')
    && m'.content.blocks[|m'.content.blocks| - 1].control == Some(ControlOf(ttl))
    && (m.content.Blocks? ==> m'.content.blocks[..|m'.content.blocks| - 1] == m.content.blocks[..|m.content.blocks| - 1])
  }

  method Mark(messages: array<Entry>, index: nat, ttl: string) returns (marked: bool)
    requires index < messages.Length
    modifies messages
    ensures marked <==> Markable(old(messages[index]))
    ensures marked ==> MarkOf(old(messages[index]), messages[index], ttl)
    ensures !marked ==> messages[index] == old(messages[index])
    ensures forall k | 0 <= k < messages.Length && k != index :: messages[k] == old(messages[k])
  {
    var m := messages[index];
    match m.content {
      case Plain(text) =>
        if Blank(text) { return false; }
        messages[index] := m.(content := Blocks([Block(text, Some(ControlOf(ttl)))]));
        return true;
      case Blocks(blocks) =>
        if blocks == [] || blocks[|blocks| - 1].Bare? { return false; }
        var last := blocks[|blocks| - 1].(control := Some(ControlOf(ttl)));
        messages[index] := m.(content := Blocks(blocks[..|blocks| - 1] + [last]));
        assert TextOf(messages[index]) == TextOf(m);
        return true;
      case Absent => return false;
    }
  }

  // --- positions ----------------------------------------------------------------------

  /** One of the two greatest positive multiples of the stride below the last message. */
  predicate IsAnchor(p: int, last: nat, stride: nat) {
    stride > 0 && 0 < p < last <= p + 2 * stride && Multiple(p, stride)
  }

  predicate Multiple(p: int, stride: nat)
    requires stride > 0
  { p % stride == 0 }

  predicate IsLastSystem(p: int, roles: seq<string>) {
    0 <= p < |roles| && roles[p] == "system" && forall q | p < q < |roles| :: roles[q] != "system"
  }

  ghost predicate Strict(ps: seq<nat>) { forall i, j | 0 <= i < j < |ps| :: ps[i] < ps[j] }

  /** The marked places of a request, described without the walk that finds them. */
  ghost predicate Placed(ps: seq<nat>, roles: seq<string>, stride: nat) {
    && roles != [] && Strict(ps) && |ps| <= MAX_BREAKPOINTS
    && forall p: nat :: p in ps <==> p == |roles| - 1 || IsLastSystem(p, roles) || IsAnchor(p, |roles| - 1, stride)
  }

  method LastSystem(roles: seq<string>) returns (at: Option<nat>)
    ensures at.Some? ==> IsLastSystem(at.value, roles)
    ensures at.None? ==> forall p: int :: !IsLastSystem(p, roles)
  {
    var i := |roles|;
    while i > 0
      invariant 0 <= i <= |roles|
      invariant forall q | i <= q < |roles| :: roles[q] != "system"
    {
      i := i - 1;
      if roles[i] == "system" { return Some(i); }
    }
    at := None;
  }

  lemma {:induction false} OneLastSystem(roles: seq<string>, p: int, q: int)
    requires IsLastSystem(p, roles) && IsLastSystem(q, roles)
    ensures p == q
  {}

  lemma {:induction false} MulAtLeast(d: int, s: nat)
    requires d > 0
    ensures d * s >= s
  {
    assert d * s == (d - 1) * s + s;
    assert (d - 1) * s >= 0;
  }

  lemma {:induction false} NegatedProduct(d: int, s: int)
    ensures (-d) * s == -(d * s)
  {}

  lemma {:induction false} SmallMultiple(d: int, s: nat)
    requires -(s as int) < d * s < s
    ensures d == 0
  {
    NegatedProduct(d, s);
    if d > 0 { MulAtLeast(d, s); }
    if d < 0 { MulAtLeast(-d, s); }
  }

  lemma {:induction false} MultiplesApart(p: int, q: int, stride: nat)
    requires stride > 0 && Multiple(p, stride) && Multiple(q, stride) && q - stride < p < q + stride
    ensures p == q
  {
    var a, b := p / stride, q / stride;
    assert p == a * stride && q == b * stride;
    assert p - q == (a - b) * stride;
    SmallMultiple(a - b, stride);
  }

  lemma {:induction false} ProductIsMultiple(a: int, stride: nat)
    requires stride > 0
    ensures Multiple(a * stride, stride)
  {
    var x := a * stride;
    var d := a - x / stride;
    assert d * stride == a * stride - x / stride * stride == x % stride;
    SmallMultiple(d, stride);
  }

  lemma {:induction false} StepDown(p: int, stride: nat)
    requires stride > 0 && Multiple(p, stride)
    ensures Multiple(p - stride, stride)
  {
    var a := p / stride;
    assert p == a * stride && p - stride == (a - 1) * stride;
    ProductIsMultiple(a - 1, stride);
  }

  /** Where the walk starts: the greatest multiple not above the last message. */
  lemma {:induction false} WalkStart(last: nat, stride: nat)
    requires stride > 0
    ensures Multiple(last / stride * stride, stride) && last - stride < last / stride * stride <= last
  {
    ProductIsMultiple(last / stride, stride);
  }

  /** The stride walk: the anchors, newest first. */
  method Anchors(last: nat, stride: nat) returns (found: seq<nat>)
    requires stride > 0
    ensures |found| <= 2
    ensures forall p: nat :: p in found <==> IsAnchor(p, last, stride)
  {
    hide Multiple;
    WalkStart(last, stride);
    var anchor: nat := last / stride * stride;
    var taken := 0;
    found := [];
    forall p: nat | IsAnchor(p, last, stride) ensures p <= anchor {
      if p > anchor { MultiplesApart(p, anchor, stride); }
    }
    while taken < 2 && anchor > 0
      invariant Multiple(anchor, stride) && taken == |found| <= 2
      invariant taken == 0 ==> last - stride <= anchor <= last
      invariant taken == 1 ==> last - 2 * stride <= anchor < last - stride
      invariant taken == 2 ==> anchor < last - 2 * stride
      invariant forall p: nat :: p in found ==> IsAnchor(p, last, stride)
      invariant forall p: nat :: IsAnchor(p, last, stride) && p > anchor ==> p in found
      decreases anchor
    {
      PositiveMultiple(anchor, stride);
      StepDown(anchor, stride);
      forall p: nat | IsAnchor(p, last, stride) && anchor - stride < p <= anchor ensures p == anchor {
        MultiplesApart(p, anchor, stride);
      }
      if anchor < last {
        found := found + [anchor];
        taken := taken + 1;
      }
      anchor := SatSub(anchor, stride);
    }
  }

  lemma {:induction false} PositiveMultiple(p: nat, stride: nat)
    requires stride > 0 && p > 0 && Multiple(p, stride)
    ensures p >= stride
  {
    if p < stride { MultiplesApart(p, 0, stride); }
  }

  function InsertAt(p: nat, ps: seq<nat>): seq<nat> {
    if ps == [] || p <= ps[0] then [p] + ps else [ps[0]] + InsertAt(p, ps[1..])
  }

  function Sorted(ps: seq<nat>): seq<nat> { if ps == [] then [] else InsertAt(ps[0], Sorted(ps[1..])) }

  /** `dedup`: drops a value equal to the one before it. */
  function Dedup(ps: seq<nat>): seq<nat> {
    if |ps| <= 1 then ps
    else if ps[0] == ps[1] then Dedup(ps[1..])
    else [ps[0]] + Dedup(ps[1..])
  }

  ghost predicate Rising(ps: seq<nat>) { forall i, j | 0 <= i < j < |ps| :: ps[i] <= ps[j] }

  lemma {:induction false} InsertAtRises(p: nat, ps: seq<nat>)
    requires Rising(ps)
    ensures Rising(InsertAt(p, ps)) && |InsertAt(p, ps)| == |ps| + 1
    ensures forall q :: q in InsertAt(p, ps) <==> q == p || q in ps
  {
    if !(ps == [] || p <= ps[0]) {
      InsertAtRises(p, ps[1..]);
      assert ps == [ps[0]] + ps[1..];
      var t := InsertAt(p, ps[1..]);
      forall j | 0 <= j < |t| ensures ps[0] <= t[j] { assert t[j] in t; }
    }
  }

  lemma {:induction false} SortedRises(ps: seq<nat>)
    ensures Rising(Sorted(ps)) && |Sorted(ps)| == |ps|
    ensures forall q :: q in Sorted(ps) <==> q in ps
  {
    if ps != [] {
      SortedRises(ps[1..]);
      InsertAtRises(ps[0], Sorted(ps[1..]));
      assert ps == [ps[0]] + ps[1..];
    }
  }

  lemma {:induction false} DedupIsStrict(ps: seq<nat>)
    requires Rising(ps)
    ensures Strict(Dedup(ps)) && |Dedup(ps)| <= |ps|
    ensures forall q :: q in Dedup(ps) <==> q in ps
  {
    if |ps| > 1 {
      DedupIsStrict(ps[1..]);
      assert ps == [ps[0]] + ps[1..];
      var t := Dedup(ps[1..]);
      if ps[0] != ps[1] {
        forall j | 0 <= j < |t| ensures ps[0] < t[j] { assert t[j] in ps[1..]; }
      }
    }
  }

  /** Gathers the places, puts them in order and drops repeats.  Nothing is ever dropped
      for being a fifth mark: at most four places qualify. */
  method BreakpointPositions(roles: seq<string>, stride: nat) returns (positions: seq<nat>)
    requires roles != []
    ensures Placed(positions, roles, stride)
  {
    var last := |roles| - 1;
    positions := [];
    var system := LastSystem(roles);
    if system.Some? { positions := positions + [system.value]; }
    forall p: int, q: int | IsLastSystem(p, roles) && IsLastSystem(q, roles) ensures p == q { OneLastSystem(roles, p, q); }
    if stride > 0 {
      var anchors := Anchors(last, stride);
      positions := positions + anchors;
    }
    positions := positions + [last];
    ghost var gathered := positions;
    assert forall p: nat :: p in gathered <==> p == last || IsLastSystem(p, roles) || IsAnchor(p, last, stride);
    SortedRises(positions);
    DedupIsStrict(Sorted(positions));
    positions := Dedup(Sorted(positions));
    positions := positions[Max(0, |positions| - MAX_BREAKPOINTS)..];
  }

  // --- marking a request -------------------------------------------------------------------

  function RolesOf(ms: seq<Entry>): seq<string> {
    seq(|ms|, i requires 0 <= i < |ms| => ms[i].role)
  }

  /** Each place among the first `n` is marked if it can be; the rest is as it was. */
  ghost predicate MarkedAt(was: seq<Entry>, is_: seq<Entry>, ps: seq<nat>, n: nat, ttl: string) {
    && |is_| == |was| && n <= |ps|
    && forall k | 0 <= k < |was| ::
         if k in ps[..n] && Markable(was[k]) then MarkOf(was[k], is_[k], ttl) else is_[k] == was[k]
  }

  function MarkableIn(ms: seq<Entry>, ps: seq<nat>): nat {
    if ps == [] then 0
    else MarkableIn(ms, ps[..|ps| - 1])
         + (if ps[|ps| - 1] < |ms| && Markable(ms[ps[|ps| - 1]]) then 1 else 0)
  }

  lemma {:induction false} MarkableInBound(ms: seq<Entry>, ps: seq<nat>)
    ensures MarkableIn(ms, ps) <= |ps|
  {
    if ps != [] { MarkableInBound(ms, ps[..|ps| - 1]); }
  }

  /** Marking the next place, or passing it over, settles that place alone. */
  lemma {:induction false} MarkedNext(was: seq<Entry>, before: seq<Entry>, after: seq<Entry>, ps: seq<nat>, n: nat, ttl: string)
    requires MarkedAt(was, before, ps, n, ttl) && n < |ps| && Strict(ps) && ps[n] < |was| == |after|
    requires if Markable(before[ps[n]]) then MarkOf(before[ps[n]], after[ps[n]], ttl) else after[ps[n]] == before[ps[n]]
    requires forall k | 0 <= k < |after| && k != ps[n] :: after[k] == before[k]
    ensures before[ps[n]] == was[ps[n]]
    ensures MarkedAt(was, after, ps, n + 1, ttl)
    ensures MarkableIn(was, ps[..n + 1]) == MarkableIn(was, ps[..n]) + (if Markable(was[ps[n]]) then 1 else 0)
  {
    hide MarkOf, Markable;
    var at := ps[n];
    assert at !in ps[..n];
    assert ps[..n + 1] == ps[..n] + [at] && ps[..n + 1][..n] == ps[..n];
    forall k | 0 <= k < |was|
      ensures if k in ps[..n + 1] && Markable(was[k]) then MarkOf(was[k], after[k], ttl) else after[k] == was[k] {
      assert k in ps[..n + 1] <==> k in ps[..n] || k == at;
    }
  }

  /** Marks a request in place; blank messages are passed over without a mark. */
  method Apply(messages: array<Entry>, explicit: bool, stride: nat, ttl: string) returns (marked: nat, ghost ps: seq<nat>)
    modifies messages
    ensures !explicit || messages.Length == 0 ==> marked == 0 && messages[..] == old(messages[..])
    ensures explicit && messages.Length > 0 ==>
              && Placed(ps, RolesOf(old(messages[..])), stride)
              && MarkedAt(old(messages[..]), messages[..], ps, |ps|, ttl)
              && marked == MarkableIn(old(messages[..]), ps) <= MAX_BREAKPOINTS
  {
    marked, ps := 0, [];
    if !explicit || messages.Length == 0 { return; }
    ghost var was := messages[..];
    var positions := BreakpointPositions(RolesOf(messages[..]), stride);
    ps := positions;
    hide Markable, MarkOf, MarkedAt, IsAnchor, IsLastSystem;
    NothingMarked(was, positions, ttl);
    for n := 0 to |positions|
      invariant MarkedAt(was, messages[..], positions, n, ttl)
      invariant marked == MarkableIn(was, positions[..n]) <= n
    {
      PlacesInside(positions, RolesOf(was), stride, n);
      if marked >= MAX_BREAKPOINTS { break; }
      ghost var before := messages[..];
      var ok := Mark(messages, positions[n], ttl);
      MarkedNext(was, before, messages[..], positions, n, ttl);
      if ok { marked := marked + 1; }
    }
    assert positions[..|positions|] == positions;
  }

  lemma {:induction false} NothingMarked(was: seq<Entry>, ps: seq<nat>, ttl: string)
    ensures MarkedAt(was, was, ps, 0, ttl)
  { hide Markable, MarkOf; }

  lemma {:induction false} PlacesInside(ps: seq<nat>, roles: seq<string>, stride: nat, n: nat)
    requires Placed(ps, roles, stride) && n < |ps|
    ensures ps[n] < |roles|
  {
    assert ps[n] in ps;
  }

  // --- what the marks reach ---------------------------------------------------------------

  /** A request before and after it was marked; nothing was marked before. */
  ghost predicate Applied(was: seq<Entry>, is_: seq<Entry>, ps: seq<nat>, stride: nat, ttl: string) {
    && Placed(ps, RolesOf(was), stride) && MarkedAt(was, is_, ps, |ps|, ttl)
    && forall k | 0 <= k < |was| :: !Marked(was[k])
  }

  /** The places marked are those among the positions that can be. */
  lemma {:induction false} MarkedIff(was: seq<Entry>, is_: seq<Entry>, ps: seq<nat>, stride: nat, ttl: string, k: nat)
    requires Applied(was, is_, ps, stride, ttl) && k < |was|
    ensures |is_| == |was| && (Marked(is_[k]) <==> k in ps && Markable(was[k]))
  {
    assert ps[..|ps|] == ps;
    hide Placed, Markable, Marked, TextOf;
    MarkOfMarks(was[k], is_[k], ttl);
  }

  lemma {:induction false} MarkOfMarks(m: Entry, m': Entry, ttl: string)
    ensures MarkOf(m, m', ttl) ==> Marked(m')
  {}

  /** Some mark finds an entry written at message `i` by walking back from it. */
  ghost predicate Finds(ms: seq<Entry>, i: int) {
    exists p: nat :: p < |ms| && Marked(ms[p]) && p - LOOKBACK <= i <= p
  }

  /** A place from which message `i` is found: one of the positions, holding something a
      mark can hang on. */
  ghost predicate FoundFrom(was: seq<Entry>, stride: nat, p: nat, i: int) {
    && p < |was| && Markable(was[p]) && p - LOOKBACK <= i <= p
    && (p == |was| - 1 || IsLastSystem(p, RolesOf(was)) || IsAnchor(p, |was| - 1, stride))
  }

  /** Exactly what the marks of a request reach. */
  lemma {:induction false} FindsIff(was: seq<Entry>, is_: seq<Entry>, ps: seq<nat>, stride: nat, ttl: string, i: int)
    requires Applied(was, is_, ps, stride, ttl)
    ensures Finds(is_, i) <==> exists p :: FoundFrom(was, stride, p, i)
  {
    hide Marked, Markable, MarkedAt, IsAnchor, IsLastSystem;
    assert |RolesOf(was)| == |was|;
    MarkedIff(was, is_, ps, stride, ttl, |was| - 1);
    if Finds(is_, i) {
      var p: nat :| p < |is_| && Marked(is_[p]) && p - LOOKBACK <= i <= p;
      MarkedIff(was, is_, ps, stride, ttl, p);
      assert FoundFrom(was, stride, p, i);
    }
    if p: nat :| FoundFrom(was, stride, p, i) {
      MarkedIff(was, is_, ps, stride, ttl, p);
    }
  }

  /** The greatest anchor. */
  function Newest(last: nat, stride: nat): nat
    requires 1 <= stride < last
  {
    WalkStart(last, stride);
    if last / stride * stride < last then last / stride * stride else last - stride
  }

  lemma {:induction false} NewestIs(last: nat, stride: nat)
    requires 1 <= stride < last
    ensures IsAnchor(Newest(last, stride), last, stride) && last - stride <= Newest(last, stride)
    ensures stride < Newest(last, stride) ==> IsAnchor(Newest(last, stride) - stride, last, stride)
    ensures forall p: int :: IsAnchor(p, last, stride) ==> p == Newest(last, stride) || p == Newest(last, stride) - stride
  {
    WalkStart(last, stride);
    var a := Newest(last, stride);
    hide Multiple;
    StepDown(last / stride * stride, stride);
    StepDown(a, stride);
    StepDown(a - stride, stride);
    forall p: int | IsAnchor(p, last, stride) ensures p == a || p == a - stride {
      if p > a - stride {
        if p > a { MultiplesApart(p, if a == last - stride then last else a, stride); } else { MultiplesApart(p, a, stride); }
      } else if p > a - 2 * stride {
        MultiplesApart(p, a - stride, stride);
      } else {
        MultiplesApart(p, last - 2 * stride, stride);
      }
    }
  }

  /** Up to a stride of twenty the walks leave no hole in the newest stride and
      twenty-one messages, as long as the last message and the anchors a walk starts from
      can be marked: a turn adding that many still finds the last mark. */
  lemma {:induction false} MarksReachBack(was: seq<Entry>, is_: seq<Entry>, ps: seq<nat>, stride: nat, ttl: string, i: int)
    requires Applied(was, is_, ps, stride, ttl) && 1 <= stride <= 20
    requires Max(0, |was| - 1 - stride - 21) <= i < |was|
    requires Markable(was[|was| - 1])
    requires forall p: nat :: p < |was| && IsAnchor(p, |was| - 1, stride) && p - LOOKBACK <= i <= p ==> Markable(was[p])
    ensures Finds(is_, i)
  {
    hide Marked, Markable, MarkedAt, IsAnchor, IsLastSystem, Newest;
    var last := |was| - 1;
    FindsIff(was, is_, ps, stride, ttl, i);
    if i >= last - LOOKBACK {
      assert FoundFrom(was, stride, last, i);
    } else {
      NewestIs(last, stride);
      var a := Newest(last, stride);
      AnchorBelow(a, last, stride);
      if i >= a - LOOKBACK {
        assert FoundFrom(was, stride, a, i);
      } else {
        AnchorBelow(a - stride, last, stride);
        assert FoundFrom(was, stride, a - stride, i);
      }
    }
  }

  lemma {:induction false} AnchorBelow(p: int, last: nat, stride: nat)
    requires IsAnchor(p, last, stride)
    ensures 0 < p < last
  {}

  /** And not otherwise: where only the newest anchor covers the message just out of the
      last one's reach, it is found exactly when something can be hung on that anchor.  A
      reply that only calls tools has no content to hang it on. */
  lemma {:induction false} BlankAnchorLeavesHole(was: seq<Entry>, is_: seq<Entry>, ps: seq<nat>, stride: nat, ttl: string)
    requires Applied(was, is_, ps, stride, ttl) && 1 <= stride < |was| - 1
    requires Newest(|was| - 1, stride) - stride < |was| - 22 <= Newest(|was| - 1, stride)
    requires forall p: int | |was| - 22 <= p < |was| :: !IsLastSystem(p, RolesOf(was))
    ensures Finds(is_, |was| - 22) <==> Markable(was[Newest(|was| - 1, stride)])
  {
    hide Marked, Markable, MarkedAt, IsAnchor, IsLastSystem, Newest;
    var last, i := |was| - 1, |was| - 22;
    var a := Newest(last, stride);
    NewestIs(last, stride);
    FindsIff(was, is_, ps, stride, ttl, i);
    AnchorBelow(a, last, stride);
    if Markable(was[a]) { assert FoundFrom(was, stride, a, i); }
    if p: nat :| FoundFrom(was, stride, p, i) { assert p == a; }
  }

  /** The bound is exact: one message further back is out of reach whenever the list
      ends just behind a multiple of the stride and no system message stands there. */
  lemma {:induction false} MarksReachNoFurther(was: seq<Entry>, is_: seq<Entry>, ps: seq<nat>, stride: nat, ttl: string)
    requires Applied(was, is_, ps, stride, ttl) && stride >= 1
    requires |was| - 1 > 2 * stride + LOOKBACK && Multiple(|was| - 2, stride)
    requires forall p: int | |was| - 1 - stride - 22 <= p < |was| :: !IsLastSystem(p, RolesOf(was))
    ensures !Finds(is_, |was| - 1 - stride - 22)
  {
    hide Marked, Markable, MarkedAt, IsLastSystem, Multiple;
    var last, i := |was| - 1, |was| - 1 - stride - 22;
    FindsIff(was, is_, ps, stride, ttl, i);
    if p: nat :| FoundFrom(was, stride, p, i) {
      StepDown(last - 1, stride);
      StepDown(last - 1 - stride, stride);
      MultiplesApart(p, last - 1 - 2 * stride, stride);
      assert false;
    }
  }

  /** While a conversation grows by at most a stride behind what was sent before, its
      newest anchor stays a position, and it carries a mark in both requests exactly when
      something can be hung on it. */
  lemma {:induction false} AnAnchorStays(was: seq<Entry>, is_: seq<Entry>, before: seq<nat>,
                                         grown: seq<Entry>, grownIs: seq<Entry>, after: seq<nat>, stride: nat, ttl: string)
    requires Applied(was, is_, before, stride, ttl) && Applied(grown, grownIs, after, stride, ttl)
    requires 1 <= stride < |was| - 1 && was <= grown && |grown| <= |was| + stride
    ensures IsAnchor(Newest(|was| - 1, stride), |grown| - 1, stride) && |grownIs| >= |is_| == |was|
    ensures Marked(is_[Newest(|was| - 1, stride)]) <==> Markable(was[Newest(|was| - 1, stride)])
    ensures Marked(grownIs[Newest(|was| - 1, stride)]) <==> Markable(was[Newest(|was| - 1, stride)])
  {
    var a := Newest(|was| - 1, stride);
    NewestIs(|was| - 1, stride);
    hide Newest, Marked, Markable, MarkedAt, IsLastSystem, Multiple;
    assert a in before && a in after;
    MarkedIff(was, is_, before, stride, ttl, a);
    MarkedIff(grown, grownIs, after, stride, ttl, a);
    assert grown[a] == was[a];
  }
}
