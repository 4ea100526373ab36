/** The session log and the message list a model is shown.

    A log is a sequence of records whose sequence numbers only grow; a message
    list is what one completion request carries.  Free text stays a string, and
    structured JSON is replaced by the constructors below. */
module EventLog {

  const U32_MAX: nat := 0xFFFF_FFFF
  const U64_MAX: nat := 0xFFFF_FFFF_FFFF_FFFF

  datatype Option<+T> = None | Some(value: T)
  datatype Result<+T, +E> = Ok(value: T) | Err(error: E)

  datatype Usage = Usage(promptTokens: nat, completionTokens: nat, cost: nat)
  datatype Call = Call(id: string, name: string, arguments: string)
  datatype Author = Author(id: string, display: string)

  /** Inclusive interval of sequence numbers. */
  datatype SeqSpan = SeqSpan(from: nat, through: nat) {
    predicate Has(at: nat) { from <= at <= through }
  }

  datatype Compaction = Compaction(spans: seq<SeqSpan>, summary: string, replaced: nat)

  datatype Event =
    | UserMessage(text: string, author: Option<Author>)
    | AssistantMessage(content: string, calls: seq<Call>, usage: Option<Usage>)
    | ToolInvocation(call: Call)
    | ToolResult(callId: string, ok: bool, output: string)
    | Nudge(text: string)
    | SystemNote(text: string)
    | ContextCompacted(compaction: Compaction)
    | ConversationStarted(tag: string)
    | Bookkeeping(tag: string)
  {
    /** What the human (or the system, in a user's voice) said. */
    predicate UserKind() { UserMessage? || Nudge? || SystemNote? }

    /** Whether the event becomes a message when it is projected. */
    predicate Bearing() { UserKind() || AssistantMessage? || ToolResult? }
  }

  datatype Record = Record(at: nat, event: Event)

  /** Records carry positive sequences, which leaves 0 for messages the log does not hold. */
  ghost predicate Chronological(log: seq<Record>) {
    && (forall i | 0 <= i < |log| :: log[i].at > 0)
    && forall i, j | 0 <= i < j < |log| :: log[i].at < log[j].at
  }

  function LastAt(log: seq<Record>): nat { if log == [] then 0 else log[|log| - 1].at }

  lemma {:induction false} ChronologicalAppend(log: seq<Record>, r: Record)
    requires Chronological(log) && LastAt(log) < r.at
    ensures Chronological(log + [r])
    ensures forall q :: q in log ==> q.at < r.at
  {}

  lemma {:induction false} SameAtSameRecord(log: seq<Record>, p: Record, q: Record)
    requires Chronological(log) && p in log && q in log && p.at == q.at
    ensures p == q
  {}

  lemma {:induction false} NoneIn<T>(a: seq<T>, b: seq<T>)
    requires forall i | 0 <= i < |a| :: a[i] in b
    ensures b == [] ==> a == []
  {
    if a != [] { assert a[0] in b; }
  }

  datatype Role = SystemRole | UserRole | AssistantRole | ToolRole

  datatype Message =
    | System(prompt: string)
    | User(content: string)
    | Assistant(text: string, calls: seq<Call>)
    | Tool(callId: string, output: string, ok: bool)
  {
    function Role(): Role {
      match this
      case System(_) => SystemRole
      case User(_) => UserRole
      case Assistant(_, _) => AssistantRole
      case Tool(_, _, _) => ToolRole
    }
    predicate HasToolCalls() { Assistant? && calls != [] }
  }

  function Digit(d: nat): (c: char)
    requires d < 10
    ensures c as int == '0' as int + d
  { ('0' as int + d) as char }

  /** Decimal rendering of a sequence number or id. */
  function Dec(n: nat): (s: string)
    ensures |s| > 0
  { if n < 10 then [Digit(n)] else Dec(n / 10) + [Digit(n % 10)] }

  lemma {:induction false} DecInjective(m: nat, n: nat)
    requires Dec(m) == Dec(n)
    ensures m == n
  {
    var a, b := Dec(m), Dec(n);
    assert a[|a| - 1] == b[|b| - 1];
    if m >= 10 && n >= 10 {
      assert a[..|a| - 1] == Dec(m / 10) && b[..|b| - 1] == Dec(n / 10);
      DecInjective(m / 10, n / 10);
    }
  }

  function Min(a: int, b: int): int { if a <= b then a else b }
  function Max(a: int, b: int): int { if a <= b then b else a }

  /** `u32::saturating_add` and `u32::saturating_sub`. */
  function SatAdd(a: nat, b: nat): nat { Min(a + b, U32_MAX) }
  function SatSub(a: nat, b: nat): nat { if b <= a then a - b else 0 }
}
