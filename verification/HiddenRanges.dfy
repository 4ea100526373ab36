/** Sequence ranges hidden from the model while they stay in the log. */
module HiddenRanges {
  import opened EventLog

  /** The JSON values a `ranges` entry can be read as; everything that is
      neither an array nor an unsigned number reads as `Other`. */
  datatype Json = Num(n: nat) | Arr(items: seq<Json>) | Other

  type Range = (nat, nat)

  datatype Hidden = Hidden(ranges: seq<Range>) {
    predicate Contains(at: nat) { In(ranges, at) }
    predicate Intersects(a: nat, b: nat) {
      var lo, hi := Min(a, b), Max(a, b);
      exists i :: 0 <= i < |ranges| && ranges[i].0 <= hi && ranges[i].1 >= lo
    }
  }

  /** Sorted, disjoint, non-adjacent, within u64: the one list of ranges for its set. */
  ghost predicate Canonical(rs: seq<Range>) {
    && (forall i | 0 <= i < |rs| :: rs[i].0 <= rs[i].1 <= U64_MAX)
    && forall i, j | 0 <= i < j < |rs| :: rs[i].1 + 1 < rs[j].0
  }

  predicate In(rs: seq<Range>, at: nat) {
    exists i :: 0 <= i < |rs| && rs[i].0 <= at <= rs[i].1
  }

  /** A well-formed entry: a two-element array of u64 values, in either order. */
  function ReadPair(v: Json): Option<Range> {
    if v.Arr? && |v.items| == 2 && v.items[0].Num? && v.items[1].Num?
       && v.items[0].n <= U64_MAX && v.items[1].n <= U64_MAX
    then Some((Min(v.items[0].n, v.items[1].n), Max(v.items[0].n, v.items[1].n)))
    else None
  }

  /** Some well-formed entry of the record spans `at`. */
  ghost predicate RawCovers(raw: seq<Json>, at: nat) {
    exists i :: 0 <= i < |raw| && ReadPair(raw[i]).Some?
             && ReadPair(raw[i]).value.0 <= at <= ReadPair(raw[i]).value.1
  }

  function Pairs(raw: seq<Json>): seq<Range> {
    if raw == [] then []
    else (if ReadPair(raw[0]).Some? then [ReadPair(raw[0]).value] else []) + Pairs(raw[1..])
  }

  predicate LexLe(a: Range, b: Range) { a.0 < b.0 || (a.0 == b.0 && a.1 <= b.1) }

  function Insert(r: Range, rs: seq<Range>): seq<Range> {
    if rs == [] || LexLe(r, rs[0]) then [r] + rs else [rs[0]] + Insert(r, rs[1..])
  }

  /** `sort_unstable`: on a totally ordered key its result is the sorted list. */
  function Sort(rs: seq<Range>): seq<Range> {
    if rs == [] then [] else Insert(rs[0], Sort(rs[1..]))
  }

  ghost predicate Ordered(rs: seq<Range>) {
    && (forall i | 0 <= i < |rs| :: rs[i].0 <= rs[i].1 <= U64_MAX)
    && forall i, j | 0 <= i < j < |rs| :: rs[i].0 <= rs[j].0
  }

  lemma {:induction false} InsertOrdered(r: Range, rs: seq<Range>)
    requires Ordered(rs) && r.0 <= r.1 <= U64_MAX
    ensures Ordered(Insert(r, rs))
    ensures forall x :: x in Insert(r, rs) <==> x == r || x in rs
  {
    if !(rs == [] || LexLe(r, rs[0])) {
      InsertOrdered(r, rs[1..]);
      assert rs == [rs[0]] + rs[1..];
      var t := Insert(r, rs[1..]);
      forall j | 0 <= j < |t| ensures rs[0].0 <= t[j].0 { assert t[j] in t; }
    }
  }

  lemma {:induction false} SortOrdered(rs: seq<Range>)
    requires forall i | 0 <= i < |rs| :: rs[i].0 <= rs[i].1 <= U64_MAX
    ensures Ordered(Sort(rs))
    ensures forall x :: x in Sort(rs) <==> x in rs
  {
    if rs != [] {
      SortOrdered(rs[1..]);
      InsertOrdered(rs[0], Sort(rs[1..]));
      assert rs == [rs[0]] + rs[1..];
    }
  }

  lemma {:induction false} PairsCover(raw: seq<Json>)
    ensures forall i | 0 <= i < |Pairs(raw)| :: Pairs(raw)[i].0 <= Pairs(raw)[i].1 <= U64_MAX
    ensures forall x :: x in Pairs(raw) <==> exists i :: 0 <= i < |raw| && ReadPair(raw[i]) == Some(x)
  {
    if raw != [] {
      PairsCover(raw[1..]);
      forall x ensures x in Pairs(raw) <==> exists i :: 0 <= i < |raw| && ReadPair(raw[i]) == Some(x) {
        if x in Pairs(raw[1..]) {
          var i :| 0 <= i < |raw[1..]| && ReadPair(raw[1..][i]) == Some(x);
          assert ReadPair(raw[i + 1]) == Some(x);
        }
        if i :| 0 <= i < |raw| && ReadPair(raw[i]) == Some(x) {
          if i > 0 { assert raw[1..][i - 1] == raw[i]; }
        }
      }
    }
  }

  /** What one sorted range does to the ranges merged so far. */
  function Absorb(merged: seq<Range>, r: Range): seq<Range> {
    if merged != [] && r.0 <= Min(merged[|merged| - 1].1 + 1, U64_MAX)
    then var last := merged[|merged| - 1];
         merged[..|merged| - 1] + [(last.0, Max(last.1, r.1))]
    else merged + [r]
  }

  lemma {:induction false} AbsorbCanonical(merged: seq<Range>, r: Range)
    requires Canonical(merged) && r.0 <= r.1 <= U64_MAX
    requires merged != [] ==> merged[|merged| - 1].0 <= r.0
    ensures Canonical(Absorb(merged, r))
    ensures Absorb(merged, r)[|Absorb(merged, r)| - 1].0 <= r.0
  {}

  /** Absorbing adds exactly the incoming range. */
  lemma {:induction false} AbsorbIn(merged: seq<Range>, r: Range, at: nat)
    requires Canonical(merged) && r.0 <= r.1 <= U64_MAX
    requires merged != [] ==> merged[|merged| - 1].0 <= r.0
    ensures In(Absorb(merged, r), at) <==> In(merged, at) || r.0 <= at <= r.1
  {
    if merged != [] && r.0 <= Min(merged[|merged| - 1].1 + 1, U64_MAX) {
      var last, init := merged[|merged| - 1], merged[..|merged| - 1];
      assert merged == init + [last];
      InAppend(init, last, at);
      InAppend(init, (last.0, Max(last.1, r.1)), at);
    } else {
      InAppend(merged, r, at);
    }
  }

  lemma {:induction false} SortedPairsCover(raw: seq<Json>)
    ensures Ordered(Sort(Pairs(raw)))
    ensures forall at: nat :: In(Sort(Pairs(raw)), at) <==> RawCovers(raw, at)
  {
    PairsCover(raw);
    SortOrdered(Pairs(raw));
    var sorted := Sort(Pairs(raw));
    forall at: nat ensures In(sorted, at) <==> RawCovers(raw, at) {
      if In(sorted, at) {
        var i :| 0 <= i < |sorted| && sorted[i].0 <= at <= sorted[i].1;
        assert sorted[i] in Pairs(raw);
      }
      if RawCovers(raw, at) {
        var i :| 0 <= i < |raw| && ReadPair(raw[i]).Some?
              && ReadPair(raw[i]).value.0 <= at <= ReadPair(raw[i]).value.1;
        assert ReadPair(raw[i]).value in sorted;
      }
    }
  }

  function AbsorbAll(rs: seq<Range>): seq<Range> {
    if rs == [] then [] else Absorb(AbsorbAll(rs[..|rs| - 1]), rs[|rs| - 1])
  }

  lemma {:induction false} AbsorbAllCanonical(rs: seq<Range>)
    requires Ordered(rs)
    ensures Canonical(AbsorbAll(rs))
    ensures rs != [] ==> AbsorbAll(rs) != [] && AbsorbAll(rs)[|AbsorbAll(rs)| - 1].0 <= rs[|rs| - 1].0
  {
    if rs != [] {
      var init, last := rs[..|rs| - 1], rs[|rs| - 1];
      assert Ordered(init);
      AbsorbAllCanonical(init);
      if init != [] { assert init[|init| - 1].0 <= last.0; }
      AbsorbCanonical(AbsorbAll(init), last);
    }
  }

  lemma {:induction false} OrderedSplit(rs: seq<Range>)
    requires Ordered(rs) && rs != []
    ensures var n := |rs| - 1;
            && Ordered(rs[..n]) && rs == rs[..n] + [rs[n]] && rs[n].0 <= rs[n].1 <= U64_MAX
            && (rs[..n] != [] ==> rs[..n][n - 1].0 <= rs[n].0)
  {}

  lemma {:induction false} AbsorbAllIn(rs: seq<Range>, at: nat)
    requires Ordered(rs)
    ensures In(AbsorbAll(rs), at) <==> In(rs, at)
  {
    hide Absorb, In, Ordered, Canonical;
    if rs != [] {
      var n := |rs| - 1;
      OrderedSplit(rs);
      AbsorbAllIn(rs[..n], at);
      AbsorbAllNext(rs[..n], rs[n], at);
    }
  }

  lemma {:induction false} AbsorbAllNext(rs: seq<Range>, r: Range, at: nat)
    requires Ordered(rs) && r.0 <= r.1 <= U64_MAX && (rs != [] ==> rs[|rs| - 1].0 <= r.0)
    requires In(AbsorbAll(rs), at) <==> In(rs, at)
    ensures AbsorbAll(rs + [r]) == Absorb(AbsorbAll(rs), r)
    ensures In(AbsorbAll(rs + [r]), at) <==> In(rs + [r], at)
  {
    hide Absorb, In, Ordered, Canonical;
    AbsorbAllCanonical(rs);
    assert (rs + [r])[..|rs|] == rs;
    AbsorbIn(AbsorbAll(rs), r, at);
    InAppend(rs, r, at);
  }

  /** The gateway's record, read leniently and normalised.  The result is
      canonical and hides exactly what some well-formed entry spans. */
  method Parse(record: Option<seq<Json>>) returns (h: Hidden)
    ensures Canonical(h.ranges)
    ensures record.None? ==> h.ranges == []
    ensures record.Some? ==> forall at: nat :: h.Contains(at) <==> RawCovers(record.value, at)
  {
    if record.None? { return Hidden([]); }
    var sorted := Sort(Pairs(record.value));
    var merged: seq<Range> := [];
    for i := 0 to |sorted|
      invariant merged == AbsorbAll(sorted[..i])
    {
      var (from, through) := sorted[i];
      assert sorted[..i + 1][..i] == sorted[..i];
      if merged != [] && from <= Min(merged[|merged| - 1].1 + 1, U64_MAX) {
        var last := merged[|merged| - 1];
        merged := merged[|merged| - 1 := (last.0, Max(last.1, through))];
      } else {
        merged := merged + [(from, through)];
      }
    }
    assert sorted[..|sorted|] == sorted;
    SortedPairsCover(record.value);
    AbsorbAllCanonical(sorted);
    h := Hidden(merged);
    forall at: nat ensures h.Contains(at) <==> RawCovers(record.value, at) {
      AbsorbAllIn(sorted, at);
    }
  }

  lemma {:induction false} InAppend(rs: seq<Range>, r: Range, at: nat)
    ensures In(rs + [r], at) <==> In(rs, at) || r.0 <= at <= r.1
  {
    if In(rs, at) {
      var i :| 0 <= i < |rs| && rs[i].0 <= at <= rs[i].1;
      assert (rs + [r])[i] == rs[i];
    }
    if r.0 <= at <= r.1 { assert (rs + [r])[|rs|] == r; }
  }

  /** Two canonical lists hiding the same set are the same list. */
  lemma {:induction false} CanonicalUnique(a: seq<Range>, b: seq<Range>)
    requires Canonical(a) && Canonical(b)
    requires forall at: nat :: In(a, at) <==> In(b, at)
    ensures a == b
  {
    if a == [] || b == [] {
      if a != [] { assert In(a, a[0].0); }
      if b != [] { assert In(b, b[0].0); }
    } else {
      HeadAgrees(a, b);
      HeadAgrees(b, a);
      forall at: nat ensures In(a[1..], at) <==> In(b[1..], at) {
        TailIn(a, at);
        TailIn(b, at);
      }
      CanonicalUnique(a[1..], b[1..]);
      assert a == [a[0]] + a[1..] && b == [b[0]] + b[1..];
    }
  }

  lemma {:induction false} TailIn(rs: seq<Range>, at: nat)
    requires rs != [] && Canonical(rs)
    ensures In(rs[1..], at) <==> In(rs, at) && at > rs[0].1
  {
    if In(rs[1..], at) {
      var i :| 0 <= i < |rs[1..]| && rs[1..][i].0 <= at <= rs[1..][i].1;
      assert rs[i + 1] == rs[1..][i];
    }
    if In(rs, at) && at > rs[0].1 {
      var i :| 0 <= i < |rs| && rs[i].0 <= at <= rs[i].1;
      assert rs[1..][i - 1] == rs[i];
    }
  }

  lemma {:induction false} GapAfterHead(rs: seq<Range>)
    requires rs != [] && Canonical(rs)
    ensures !In(rs, rs[0].1 + 1)
  {
    forall i | 0 <= i < |rs| ensures !(rs[i].0 <= rs[0].1 + 1 <= rs[i].1) {
      if i > 0 { assert rs[0].1 + 1 < rs[i].0; }
    }
  }

  lemma {:induction false} HeadAgrees(a: seq<Range>, b: seq<Range>)
    requires a != [] && b != [] && Canonical(a) && Canonical(b)
    requires forall at: nat :: In(a, at) <==> In(b, at)
    ensures a[0].0 <= b[0].0 && a[0].1 >= b[0].1
  {
    assert In(b, b[0].0);
    var i :| 0 <= i < |a| && a[i].0 <= b[0].0 <= a[i].1;
    assert In(a, a[0].0);
    var k :| 0 <= k < |b| && b[k].0 <= a[0].0 <= b[k].1;
    assert a[0].0 <= b[0].0;
    assert b[0].0 <= a[0].0;
    if a[0].1 < b[0].1 {
      GapAfterHead(a);
      assert false;
    }
  }

  /** `Intersects` answers exactly "is any sequence in this interval hidden". */
  lemma {:induction false} IntersectsMeansOverlap(h: Hidden, a: nat, b: nat)
    requires Canonical(h.ranges)
    ensures h.Intersects(a, b) <==> exists at: nat :: Min(a, b) <= at <= Max(a, b) && h.Contains(at)
  {
    var lo, hi := Min(a, b), Max(a, b);
    if h.Intersects(a, b) {
      var i :| 0 <= i < |h.ranges| && h.ranges[i].0 <= hi && h.ranges[i].1 >= lo;
      var at: nat := Max(lo, h.ranges[i].0);
      assert h.Contains(at);
    }
  }
}
