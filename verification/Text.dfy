/** The few string operations the modelled code relies on. */
module Text {

  /** Unicode White_Space, what `str::trim` removes. */
  predicate IsWhitespace(c: char) {
    var n := c as int;
    || 0x9 <= n <= 0xD || n == 0x20 || n == 0x85 || n == 0xA0 || n == 0x1680
    || 0x2000 <= n <= 0x200A || n == 0x2028 || n == 0x2029 || n == 0x202F || n == 0x205F || n == 0x3000
  }

  function TrimStart(s: string): string {
    if s != [] && IsWhitespace(s[0]) then TrimStart(s[1..]) else s
  }

  function TrimEnd(s: string): string {
    if s != [] && IsWhitespace(s[|s| - 1]) then TrimEnd(s[..|s| - 1]) else s
  }

  function Trim(s: string): string { TrimEnd(TrimStart(s)) }

  function Utf8Bytes(c: char): nat {
    var n := c as int;
    if n < 0x80 then 1 else if n < 0x800 then 2 else if n < 0x1_0000 then 3 else 4
  }

  /** `str::len`, which counts bytes. */
  function ByteLength(s: string): nat { if s == [] then 0 else Utf8Bytes(s[0]) + ByteLength(s[1..]) }

  function Join(parts: seq<string>, separator: string): string {
    if parts == [] then ""
    else if |parts| == 1 then parts[0]
    else parts[0] + separator + Join(parts[1..], separator)
  }

  lemma {:induction false} JoinSnoc(parts: seq<string>, last: string, separator: string)
    ensures Join(parts + [last], separator)
         == if parts == [] then last else Join(parts, separator) + separator + last
  {
    var all := parts + [last];
    if parts == [] {
      assert all == [last];
    } else {
      JoinSnoc(parts[1..], last, separator);
      assert all[1..] == parts[1..] + [last];
    }
  }

  predicate Blanks(s: string) { forall i | 0 <= i < |s| :: IsWhitespace(s[i]) }

  /** Trimming takes off exactly the white space on either side. */
  lemma {:induction false} TrimIs(s: string) returns (before: string, after: string)
    ensures s == before + Trim(s) + after && Blanks(before) && Blanks(after)
    ensures Trim(s) != "" ==> !IsWhitespace(Trim(s)[0]) && !IsWhitespace(Trim(s)[|Trim(s)| - 1])
  {
    before := TrimStartIs(s);
    after := TrimEndIs(TrimStart(s));
    hide TrimStart, TrimEnd, IsWhitespace;
    assert s == before + (Trim(s) + after) == before + Trim(s) + after;
    if Trim(s) != "" { assert Trim(s)[0] == TrimStart(s)[0]; }
  }

  lemma {:induction false} TrimStartIs(s: string) returns (before: string)
    ensures s == before + TrimStart(s) && Blanks(before)
    ensures TrimStart(s) != "" ==> !IsWhitespace(TrimStart(s)[0])
  {
    before := "";
    if s != "" && IsWhitespace(s[0]) {
      before := TrimStartIs(s[1..]);
      before := [s[0]] + before;
    }
  }

  lemma {:induction false} TrimEndIs(s: string) returns (after: string)
    ensures s == TrimEnd(s) + after && Blanks(after)
    ensures TrimEnd(s) != "" ==> !IsWhitespace(TrimEnd(s)[|TrimEnd(s)| - 1])
  {
    after := "";
    if s != "" && IsWhitespace(s[|s| - 1]) {
      after := TrimEndIs(s[..|s| - 1]);
      after := after + [s[|s| - 1]];
    }
  }

  /** A text in which another occurs. */
  ghost predicate Mentions(text: string, part: string) { exists a, b: string :: text == a + part + b }

  lemma {:induction false} JoinMentions(parts: seq<string>, separator: string, i: nat)
    requires i < |parts|
    ensures Mentions(Join(parts, separator), parts[i])
  {
    if |parts| == 1 {
      assert Join(parts, separator) == "" + parts[0] + "";
    } else if i == 0 {
      assert Join(parts, separator) == "" + parts[0] + (separator + Join(parts[1..], separator));
    } else {
      JoinMentions(parts[1..], separator, i - 1);
      var a, b: string :| Join(parts[1..], separator) == a + parts[1..][i - 1] + b;
      assert Join(parts, separator) == (parts[0] + separator + a) + parts[i] + b;
    }
  }

  lemma {:induction false} MentionsInside(front: string, text: string, back: string, part: string)
    requires Mentions(text, part)
    ensures Mentions(front + text + back, part)
  {
    var a, b: string :| text == a + part + b;
    assert front + text + back == (front + a) + part + (b + back);
  }
}
