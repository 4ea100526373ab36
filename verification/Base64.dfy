/** Attachment payloads: base64 (section 4 of RFC 4648), decoded by hand. */
module Base64 {
  import opened EventLog

  type Byte = n: nat | n < 256

  const NEWLINE: Byte := 10
  const EQUALS: Byte := 61

  /** `u8::is_ascii_whitespace`. */
  predicate IsBlank(c: Byte) { c == 9 || c == 10 || c == 12 || c == 13 || c == 32 }

  function Value(c: Byte): (v: Option<nat>)
    ensures v.Some? ==> v.value < 64
  {
    if 65 <= c <= 90 then Some(c - 65)
    else if 97 <= c <= 122 then Some(c - 97 + 26)
    else if 48 <= c <= 57 then Some(c - 48 + 52)
    else if c == 43 then Some(62)
    else if c == 47 then Some(63)
    else None
  }

  function Letter(v: nat): (c: Byte)
    requires v < 64
    ensures Value(c) == Some(v) && !IsBlank(c) && c != EQUALS
  {
    if v < 26 then 65 + v
    else if v < 52 then 97 + (v - 26)
    else if v < 62 then 48 + (v - 52)
    else if v == 62 then 43
    else 47
  }

  // --- what decoding means ------------------------------------------------------------

  /** The six-bit groups in front of the padding; None when a byte is foreign. */
  function Groups(input: seq<Byte>): Option<seq<nat>> {
    if input == [] || input[0] == EQUALS then Some([])
    else if IsBlank(input[0]) then Groups(input[1..])
    else
      var v, rest := Value(input[0]), Groups(input[1..]);
      if v.None? || rest.None? then None else Some([v.value] + rest.value)
  }

  /** Powers of two up to the twelve bits the accumulator ever holds. */
  function Pow2(n: nat): nat
    requires n <= 12
  {
    if n == 0 then 1 else if n == 2 then 4 else if n == 4 then 16 else if n == 6 then 64
    else if n == 8 then 256 else if n == 10 then 1024 else if n == 12 then 4096 else 2 * Pow2(n - 1)
  }

  /** Between bytes an even number of bits below eight is left over, and no more. */
  ghost predicate Fits(acc: nat, bits: nat) { bits in {0, 2, 4, 6} && acc < Pow2(bits) }

  /** `w >> k`, and what it shifts out. */
  function High(w: nat, k: nat): nat
    requires k in {0, 2, 4}
  { if k == 0 then w else if k == 2 then w / 4 else w / 16 }

  function Low(w: nat, k: nat): nat
    requires k in {0, 2, 4}
  { if k == 0 then 0 else if k == 2 then w % 4 else w % 16 }

  /** Six more bits stay within twelve, so no shift of a u32 loses any. */
  lemma {:induction false} Widened(acc: nat, bits: nat, v: nat)
    requires Fits(acc, bits) && v < 64
    ensures acc * 64 + v < Pow2(bits + 6) <= 4096
    ensures bits == 0 ==> Fits(acc * 64 + v, 6)
    ensures bits > 0 ==> High(acc * 64 + v, bits - 2) < 256 && Fits(Low(acc * 64 + v, bits - 2), bits - 2)
  {}

  /** Whole bytes out of six-bit groups, `acc` holding `bits` bits left over. */
  function Pack(groups: seq<nat>, acc: nat, bits: nat): seq<Byte>
    requires Fits(acc, bits) && forall i | 0 <= i < |groups| :: groups[i] < 64
  {
    if groups == [] then []
    else
      var wide := acc * 64 + groups[0];
      Widened(acc, bits, groups[0]);
      if bits == 0 then Pack(groups[1..], wide, 6)
      else [High(wide, bits - 2)] + Pack(groups[1..], Low(wide, bits - 2), bits - 2)
  }

  function Decoded(input: seq<Byte>): Option<seq<Byte>> {
    GroupsSmall(input);
    if Groups(input).None? then None else Some(Pack(Groups(input).value, 0, 0))
  }

  lemma {:induction false} GroupsSmall(input: seq<Byte>)
    ensures Groups(input).Some? ==> forall i | 0 <= i < |Groups(input).value| :: Groups(input).value[i] < 64
  {
    if input != [] { GroupsSmall(input[1..]); }
  }

  /** The decoding loop. */
  method Decode(input: seq<Byte>) returns (out: Option<seq<Byte>>)
    ensures out == Decoded(input)
  {
    var bytes: seq<Byte>, acc: nat, bits: nat := [], 0, 0;
    GroupsSmall(input);
    assert input[0..] == input;
    assert Fits(0, 0);
    hide Pack, High, Low, Pow2;
    for i := 0 to |input|
      invariant Fits(acc, bits)
      invariant Groups(input).None? <==> Groups(input[i..]).None?
      invariant Groups(input).Some? ==> Owes(bytes, input[i..], acc, bits, Decoded(input).value)
    {
      var c := input[i];
      assert input[i..][0] == c && input[i..][1..] == input[i + 1..];
      GroupsSmall(input[i..]);
      GroupsSmall(input[i + 1..]);
      if IsBlank(c) { continue; }
      if c == EQUALS {
        if Groups(input).Some? { OwesNothing(bytes, input[i..], acc, bits, Decoded(input).value); }
        return Some(bytes);
      }
      var v := Value(c);
      if v.None? { return None; }
      ghost var acc0, bits0, bytes0 := acc, bits, bytes;
      Widened(acc, bits, v.value);
      acc := acc * 64 + v.value;
      bits := bits + 6;
      if bits >= 8 {
        bits := bits - 8;
        bytes := bytes + [High(acc, bits)];
        acc := Low(acc, bits);
      }
      if Groups(input).Some? { OwesNext(bytes0, input[i..], acc0, bits0, Decoded(input).value); }
    }
    if Groups(input).Some? { OwesNothing(bytes, input[|input|..], acc, bits, Decoded(input).value); }
    out := Some(bytes);
  }

  /** What is left to decode completes `all`. */
  ghost predicate Owes(done: seq<Byte>, rest: seq<Byte>, acc: nat, bits: nat, all: seq<Byte>) {
    && Fits(acc, bits) && Groups(rest).Some?
    && (forall i | 0 <= i < |Groups(rest).value| :: Groups(rest).value[i] < 64)
    && done + Pack(Groups(rest).value, acc, bits) == all
  }

  lemma {:induction false} OwesNothing(done: seq<Byte>, rest: seq<Byte>, acc: nat, bits: nat, all: seq<Byte>)
    requires Owes(done, rest, acc, bits, all) && (rest == [] || rest[0] == EQUALS)
    ensures done == all
  {}

  lemma {:induction false} OwesNext(done: seq<Byte>, rest: seq<Byte>, acc: nat, bits: nat, all: seq<Byte>)
    requires Owes(done, rest, acc, bits, all) && rest != [] && rest[0] != EQUALS && !IsBlank(rest[0])
    ensures Value(rest[0]).Some?
    ensures var wide := acc * 64 + Value(rest[0]).value;
            if bits == 0 then Owes(done, rest[1..], wide, 6, all)
            else (High(wide, bits - 2) < 256
                  && Owes(done + [High(wide, bits - 2)], rest[1..], Low(wide, bits - 2), bits - 2, all))
  {
    var v, groups := Value(rest[0]).value, Groups(rest).value;
    GroupsSmall(rest[1..]);
    Widened(acc, bits, v);
    hide High, Low, Pow2;
    assert groups[1..] == Groups(rest[1..]).value;
    var wide := acc * 64 + v;
    if bits > 0 {
      var tail := Pack(groups[1..], Low(wide, bits - 2), bits - 2);
      assert done + ([High(wide, bits - 2)] + tail) == (done + [High(wide, bits - 2)]) + tail;
    }
  }

  // --- laws ------------------------------------------------------------------------------

  /** The padded encoding: three bytes to four letters, the last ones padded. */
  function Encode(bytes: seq<Byte>): seq<Byte> {
    if bytes == [] then []
    else if |bytes| == 1 then [Letter(bytes[0] / 4), Letter(bytes[0] % 4 * 16), EQUALS, EQUALS]
    else if |bytes| == 2 then
      [Letter(bytes[0] / 4), Letter(bytes[0] % 4 * 16 + bytes[1] / 16), Letter(bytes[1] % 16 * 4), EQUALS]
    else
      [Letter(bytes[0] / 4), Letter(bytes[0] % 4 * 16 + bytes[1] / 16),
       Letter(bytes[1] % 16 * 4 + bytes[2] / 64), Letter(bytes[2] % 64)] + Encode(bytes[3..])
  }

  function GroupsOf(bytes: seq<Byte>): (g: seq<nat>)
    ensures forall i | 0 <= i < |g| :: g[i] < 64
  {
    if bytes == [] then []
    else if |bytes| == 1 then [bytes[0] / 4, bytes[0] % 4 * 16]
    else if |bytes| == 2 then [bytes[0] / 4, bytes[0] % 4 * 16 + bytes[1] / 16, bytes[1] % 16 * 4]
    else [bytes[0] / 4, bytes[0] % 4 * 16 + bytes[1] / 16, bytes[1] % 16 * 4 + bytes[2] / 64, bytes[2] % 64]
         + GroupsOf(bytes[3..])
  }

  lemma {:induction false} LetterRead(v: nat, rest: seq<Byte>)
    requires v < 64 && Groups(rest).Some?
    ensures Groups([Letter(v)] + rest) == Some([v] + Groups(rest).value)
  {
    assert ([Letter(v)] + rest)[1..] == rest;
  }

  lemma {:induction false} PaddingRead(rest: seq<Byte>)
    ensures Groups([EQUALS] + rest) == Some([])
  {}

  lemma {:induction false} TwoRead(a: nat, b: nat)
    requires a < 64 && b < 64
    ensures Groups([Letter(a), Letter(b), EQUALS, EQUALS]) == Some([a, b])
  {
    hide Letter, Value;
    PaddingRead([EQUALS]);
    LetterRead(b, [EQUALS] + [EQUALS]);
    LetterRead(a, [Letter(b)] + ([EQUALS] + [EQUALS]));
    assert [Letter(a), Letter(b), EQUALS, EQUALS] == [Letter(a)] + ([Letter(b)] + ([EQUALS] + [EQUALS]));
    assert [a, b] == [a] + ([b] + []);
  }

  lemma {:induction false} ThreeRead(a: nat, b: nat, c: nat)
    requires a < 64 && b < 64 && c < 64
    ensures Groups([Letter(a), Letter(b), Letter(c), EQUALS]) == Some([a, b, c])
  {
    hide Letter, Value;
    PaddingRead([]);
    LetterRead(c, [EQUALS] + []);
    LetterRead(b, [Letter(c)] + ([EQUALS] + []));
    LetterRead(a, [Letter(b)] + ([Letter(c)] + ([EQUALS] + [])));
    assert [Letter(a), Letter(b), Letter(c), EQUALS] == [Letter(a)] + ([Letter(b)] + ([Letter(c)] + ([EQUALS] + [])));
    assert [a, b, c] == [a] + ([b] + ([c] + []));
  }

  lemma {:induction false} FourRead(a: nat, b: nat, c: nat, d: nat, rest: seq<Byte>)
    requires a < 64 && b < 64 && c < 64 && d < 64 && Groups(rest).Some?
    ensures Groups([Letter(a), Letter(b), Letter(c), Letter(d)] + rest) == Some([a, b, c, d] + Groups(rest).value)
  {
    hide Letter, Value;
    var g := Groups(rest).value;
    LetterRead(d, rest);
    LetterRead(c, [Letter(d)] + rest);
    LetterRead(b, [Letter(c)] + ([Letter(d)] + rest));
    LetterRead(a, [Letter(b)] + ([Letter(c)] + ([Letter(d)] + rest)));
    hide Groups;
    assert [Letter(a), Letter(b), Letter(c), Letter(d)] + rest == [Letter(a)] + ([Letter(b)] + ([Letter(c)] + ([Letter(d)] + rest)));
    assert [a, b, c, d] + g == [a] + ([b] + ([c] + ([d] + g)));
  }

  lemma {:induction false} EncodedGroups(bytes: seq<Byte>)
    ensures Groups(Encode(bytes)) == Some(GroupsOf(bytes))
  {
    hide Letter, Value;
    if |bytes| == 1 {
      TwoRead(bytes[0] / 4, bytes[0] % 4 * 16);
    } else if |bytes| == 2 {
      ThreeRead(bytes[0] / 4, bytes[0] % 4 * 16 + bytes[1] / 16, bytes[1] % 16 * 4);
    } else if |bytes| > 2 {
      EncodedGroups(bytes[3..]);
      FourRead(bytes[0] / 4, bytes[0] % 4 * 16 + bytes[1] / 16, bytes[1] % 16 * 4 + bytes[2] / 64, bytes[2] % 64,
               Encode(bytes[3..]));
    }
  }

  /** One group in: the byte it completes, and what is left over. */
  lemma {:induction false} PackOne(v: nat, rest: seq<nat>, acc: nat, bits: nat)
    requires Fits(acc, bits) && v < 64 && forall i | 0 <= i < |rest| :: rest[i] < 64
    ensures var wide := acc * 64 + v;
            if bits == 0 then Fits(wide, 6) && Pack([v] + rest, acc, bits) == Pack(rest, wide, 6)
            else High(wide, bits - 2) < 256 && Fits(Low(wide, bits - 2), bits - 2)
                 && Pack([v] + rest, acc, bits) == [High(wide, bits - 2)] + Pack(rest, Low(wide, bits - 2), bits - 2)
  {
    Widened(acc, bits, v);
    hide High, Low, Pow2;
    assert ([v] + rest)[1..] == rest && forall i | 0 <= i < |[v] + rest| :: ([v] + rest)[i] < 64;
  }

  lemma {:induction false} Rejoined(x: Byte, y: Byte, z: Byte)
    ensures Fits(x / 4, 6) && Fits(y / 16, 4) && Fits(z / 64, 2) && Fits(0, 0)
    ensures High(x / 4 * 64 + (x % 4 * 16 + y / 16), 4) == x && Low(x / 4 * 64 + (x % 4 * 16 + y / 16), 4) == y / 16
    ensures High(y / 16 * 64 + (y % 16 * 4 + z / 64), 2) == y && Low(y / 16 * 64 + (y % 16 * 4 + z / 64), 2) == z / 64
    ensures High(z / 64 * 64 + z % 64, 0) == z && Low(z / 64 * 64 + z % 64, 0) == 0
  {}

  lemma {:induction false} PackThree(x: Byte, y: Byte, z: Byte, rest: seq<nat>)
    requires forall i | 0 <= i < |rest| :: rest[i] < 64
    ensures Fits(0, 0)
    ensures Pack([x / 4, x % 4 * 16 + y / 16, y % 16 * 4 + z / 64, z % 64] + rest, 0, 0) == [x, y, z] + Pack(rest, 0, 0)
  {
    var a, b, c, d := x / 4, x % 4 * 16 + y / 16, y % 16 * 4 + z / 64, z % 64;
    Rejoined(x, y, z);
    hide High, Low, Fits;
    PackOne(a, [b] + ([c] + ([d] + rest)), 0, 0);
    PackOne(b, [c] + ([d] + rest), a, 6);
    PackOne(c, [d] + rest, y / 16, 4);
    PackOne(d, rest, z / 64, 2);
    hide Pack;
    assert [a] + ([b] + ([c] + ([d] + rest))) == [a, b, c, d] + rest;
    var tail := Pack(rest, 0, 0);
    assert [x] + ([y] + ([z] + tail)) == [x, y, z] + tail;
  }

  lemma {:induction false} PackLastTwo(x: Byte, y: Byte)
    ensures Fits(0, 0) && Pack([x / 4, x % 4 * 16 + y / 16, y % 16 * 4], 0, 0) == [x, y]
  {
    var a, b, c := x / 4, x % 4 * 16 + y / 16, y % 16 * 4;
    Rejoined(x, y, 0);
    hide High, Low, Fits;
    PackOne(a, [b] + ([c] + []), 0, 0);
    PackOne(b, [c] + [], a, 6);
    PackOne(c, [], y / 16, 4);
    assert [a] + ([b] + ([c] + [])) == [a, b, c];
  }

  lemma {:induction false} PackLastOne(x: Byte)
    ensures Fits(0, 0) && Pack([x / 4, x % 4 * 16], 0, 0) == [x]
  {
    var a, b := x / 4, x % 4 * 16;
    Rejoined(x, 0, 0);
    hide High, Low, Fits;
    PackOne(a, [b] + [], 0, 0);
    PackOne(b, [], a, 6);
    assert [a] + ([b] + []) == [a, b];
  }

  lemma {:induction false} PackedBack(bytes: seq<Byte>)
    ensures Pack(GroupsOf(bytes), 0, 0) == bytes
  {
    if |bytes| == 1 {
      PackLastOne(bytes[0]);
    } else if |bytes| == 2 {
      PackLastTwo(bytes[0], bytes[1]);
    } else if |bytes| > 2 {
      PackThree(bytes[0], bytes[1], bytes[2], GroupsOf(bytes[3..]));
      PackedBack(bytes[3..]);
      hide Pack;
      assert [bytes[0], bytes[1], bytes[2]] + bytes[3..] == bytes;
    }
  }

  /** Decoding the padded encoding of any bytes gives them back. */
  lemma {:induction false} RoundTrip(bytes: seq<Byte>)
    ensures Decoded(Encode(bytes)) == Some(bytes)
  {
    EncodedGroups(bytes);
    PackedBack(bytes);
  }

  predicate Foreign(c: Byte) { !IsBlank(c) && c != EQUALS && Value(c).None? }

  /** A payload is refused exactly when a foreign byte stands in front of its padding. */
  lemma {:induction false} RefusedIff(input: seq<Byte>)
    ensures Decoded(input).None? <==> exists i :: 0 <= i < |input| && Foreign(input[i]) && EQUALS !in input[..i]
  {
    if input != [] && input[0] != EQUALS {
      var rest := input[1..];
      RefusedIff(rest);
      if i :| 0 <= i < |rest| && Foreign(rest[i]) && EQUALS !in rest[..i] {
        assert input[..i + 1] == [input[0]] + rest[..i];
        assert Foreign(input[i + 1]);
      }
      if i :| 0 <= i < |input| && Foreign(input[i]) && EQUALS !in input[..i] {
        if i > 0 {
          assert input[..i] == [input[0]] + rest[..i - 1];
          assert Foreign(rest[i - 1]);
        }
      }
    } else if input != [] {
      forall i | 0 < i < |input| ensures EQUALS in input[..i] { assert input[..i][0] == EQUALS; }
    }
  }

  /** White space anywhere makes no difference. */
  lemma {:induction false} BlanksAreIgnored(a: seq<Byte>, blank: Byte, b: seq<Byte>)
    requires IsBlank(blank)
    ensures Decoded(a + [blank] + b) == Decoded(a + b)
  {
    BlanksReadTheSame(a, blank, b);
  }

  lemma {:induction false} BlanksReadTheSame(a: seq<Byte>, blank: Byte, b: seq<Byte>)
    requires IsBlank(blank)
    ensures Groups(a + [blank] + b) == Groups(a + b)
  {
    if a == [] {
      assert a + [blank] + b == [blank] + b && a + b == b;
      assert ([blank] + b)[1..] == b;
    } else {
      assert (a + [blank] + b)[1..] == a[1..] + [blank] + b && (a + b)[1..] == a[1..] + b;
      BlanksReadTheSame(a[1..], blank, b);
    }
  }
}
