/** The durable todo list of a conversation: identities survive rewriting, a failed
    call changes nothing, and a dropped identity never comes back. */
module Todos {
  import opened EventLog
  import opened Text

  const MAX_ITEMS: nat := 50
  const MAX_CONTENT: nat := 200

  datatype Status = Pending | InProgress | Completed | Cancelled {
    predicate IsOpen() { Pending? || InProgress? }
    function Name(): string {
      match this
      case Pending => "pending"
      case InProgress => "in_progress"
      case Completed => "completed"
      case Cancelled => "cancelled"
    }
  }

  function ParseStatus(s: string): Result<Status, string> {
    if s == "pending" then Ok(Pending)
    else if s == "in_progress" || s == "in-progress" then Ok(InProgress)
    else if s == "completed" || s == "done" then Ok(Completed)
    else if s == "cancelled" || s == "canceled" then Ok(Cancelled)
    else Err("unknown todo status '" + s + "'; use pending, in_progress, completed, or cancelled")
  }

  datatype Todo = Todo(id: string, content: string, activeForm: string, status: Status, created: nat, updated: nat)
  datatype TodoList = TodoList(items: seq<Todo>, nextId: nat, revision: nat, updated: nat)

  const EMPTY: TodoList := TodoList([], 1, 0, 0)

  /** The string fields of one JSON item; a field of another type reads as absent. */
  datatype Spec = Spec(content: Option<string>, activeForm: Option<string>, status: Option<string>)
  datatype Change = Change(id: Option<string>, index: Option<nat>,
                           status: Option<string>, content: Option<string>, activeForm: Option<string>)

  datatype Fields = Fields(content: string, activeForm: string, status: Status)

  function Default(o: Option<string>, d: string): string { if o.Some? then o.value else d }

  function ItemSpec(spec: Spec): Result<Fields, string> {
    if spec.content.None? then Err("each todo needs content") else
    var content := Trim(spec.content.value);
    if content == "" then Err("todo content must not be empty")
    else if ByteLength(content) > MAX_CONTENT then
      Err("todo content is " + Dec(ByteLength(content)) + " bytes, over the 200-byte limit")
    else
      var status := ParseStatus(Default(spec.status, "pending"));
      if status.Err? then Err(status.error)
      else Ok(Fields(content, Trim(Default(spec.activeForm, "")), status.value))
  }

  function IdOf(n: nat): string { "t" + Dec(n) }

  lemma {:induction false} IdOfInjective(m: nat, n: nat)
    requires IdOf(m) == IdOf(n)
    ensures m == n
  {
    assert IdOf(m)[1..] == Dec(m) && IdOf(n)[1..] == Dec(n);
    DecInjective(m, n);
  }

  // --- whole-list replacement -----------------------------------------------------------

  function FindContent(items: seq<Todo>, content: string): (k: nat)
    ensures k <= |items| && (k < |items| ==> items[k].content == content)
    ensures forall j | 0 <= j < k :: items[j].content != content
  { if items == [] || items[0].content == content then 0 else 1 + FindContent(items[1..], content) }

  function Without<T>(items: seq<T>, k: nat): seq<T>
    requires k < |items|
  { items[..k] + items[k + 1..] }

  datatype Rewritten = Rewritten(items: seq<Todo>, nextId: nat)

  /** An item from one spec: the identity of the first unclaimed old item with its
      content, or a fresh one. */
  function Claim(prior: seq<Todo>, f: Fields, nextId: nat, now: nat): Todo {
    var k := FindContent(prior, f.content);
    if k < |prior| then Todo(prior[k].id, f.content, f.activeForm, f.status, prior[k].created, now)
    else Todo(IdOf(nextId), f.content, f.activeForm, f.status, now, now)
  }

  /** What is left to claim from. */
  function Unclaimed(prior: seq<Todo>, f: Fields): seq<Todo> {
    var k := FindContent(prior, f.content);
    if k < |prior| then Without(prior, k) else prior
  }

  function NextId(prior: seq<Todo>, f: Fields, nextId: nat): nat {
    if FindContent(prior, f.content) < |prior| then nextId else nextId + 1
  }

  function Prepend(items: seq<Todo>, r: Result<Rewritten, string>): Result<Rewritten, string> {
    if r.Ok? then Ok(Rewritten(items + r.value.items, r.value.nextId)) else r
  }

  function Rewrite(prior: seq<Todo>, specs: seq<Spec>, nextId: nat, now: nat): Result<Rewritten, string>
    decreases specs
  {
    if specs == [] then Ok(Rewritten([], nextId)) else
    var f := ItemSpec(specs[0]);
    if f.Err? then Err(f.error)
    else Prepend([Claim(prior, f.value, nextId, now)],
                 Rewrite(Unclaimed(prior, f.value), specs[1..], NextId(prior, f.value, nextId), now))
  }

  lemma {:induction false} PrependTwice(items: seq<Todo>, x: Todo, r: Result<Rewritten, string>)
    ensures Prepend(items, Prepend([x], r)) == Prepend(items + [x], r)
  {
    if r.Ok? { assert items + ([x] + r.value.items) == items + [x] + r.value.items; }
  }

  lemma {:induction false} RewriteNext(prior: seq<Todo>, specs: seq<Spec>, i: nat, nextId: nat, now: nat)
    requires i < |specs|
    ensures var f := ItemSpec(specs[i]);
            Rewrite(prior, specs[i..], nextId, now) ==
            if f.Err? then Err(f.error)
            else Prepend([Claim(prior, f.value, nextId, now)],
                         Rewrite(Unclaimed(prior, f.value), specs[i + 1..], NextId(prior, f.value, nextId), now))
  {
    assert specs[i..][1..] == specs[i + 1..];
  }

  /** The loop of the source: items drawn from a shrinking copy of the old list. */
  method Replace(existing: TodoList, specs: seq<Spec>, now: nat) returns (r: Result<TodoList, string>)
    ensures |specs| > MAX_ITEMS ==> r.Err?
    ensures |specs| <= MAX_ITEMS ==>
      var w := Rewrite(existing.items, specs, existing.nextId, now);
      if w.Ok? then r == Ok(existing.(items := w.value.items, nextId := w.value.nextId)) else r == Err(w.error)
  {
    if |specs| > MAX_ITEMS { return Err("a todo list may contain at most 50 items"); }
    var unclaimed, items, nextId := existing.items, [], existing.nextId;
    ghost var all := Rewrite(existing.items, specs, existing.nextId, now);
    assert specs[0..] == specs && (all.Ok? ==> [] + all.value.items == all.value.items);
    for i := 0 to |specs|
      invariant all == Prepend(items, Rewrite(unclaimed, specs[i..], nextId, now))
    {
      var f := ItemSpec(specs[i]);
      RewriteNext(unclaimed, specs, i, nextId, now);
      if f.Err? { return Err(f.error); }
      ghost var before, minted := unclaimed, nextId;
      var k := FindContent(unclaimed, f.value.content);
      var id, created;
      if k < |unclaimed| {
        id, created := unclaimed[k].id, unclaimed[k].created;
        unclaimed := unclaimed[..k] + unclaimed[k + 1..];
      } else {
        id, created := IdOf(nextId), now;
        nextId := nextId + 1;
      }
      var item := Todo(id, f.value.content, f.value.activeForm, f.value.status, created, now);
      assert item == Claim(before, f.value, minted, now);
      assert unclaimed == Unclaimed(before, f.value) && nextId == NextId(before, f.value, minted);
      PrependTwice(items, item, Rewrite(unclaimed, specs[i + 1..], nextId, now));
      items := items + [item];
    }
    assert specs[|specs|..] == [] && items + [] == items;
    assert all == Ok(Rewritten(items, nextId));
    r := Ok(existing.(items := items, nextId := nextId));
  }

  /** Who the items with one content are, in order. */
  function Identities(items: seq<Todo>, content: string): seq<(string, nat)> {
    if items == [] then []
    else (if items[0].content == content then [(items[0].id, items[0].created)] else [])
         + Identities(items[1..], content)
  }

  lemma {:induction false} IdentitiesWithout(items: seq<Todo>, k: nat, content: string)
    requires k < |items| && forall j | 0 <= j < k :: items[j].content != items[k].content
    ensures Identities(items, content) ==
      (if content == items[k].content then [(items[k].id, items[k].created)] else [])
      + Identities(Without(items, k), content)
    decreases k
  {
    if k == 0 {
      assert Without(items, 0) == items[1..];
    } else {
      IdentitiesWithout(items[1..], k - 1, content);
      assert Without(items, k) == [items[0]] + Without(items[1..], k - 1);
      assert Without(items, k)[1..] == Without(items[1..], k - 1);
      var head := if items[0].content == content then [(items[0].id, items[0].created)] else [];
      assert Identities(Without(items, k), content) == head + Identities(Without(items[1..], k - 1), content);
    }
  }

  lemma {:induction false} NoIdentities(items: seq<Todo>, content: string)
    requires forall j | 0 <= j < |items| :: items[j].content != content
    ensures Identities(items, content) == []
  {
    if items != [] { NoIdentities(items[1..], content); }
  }

  /** A fresh identity: minted by this call, born now. */
  ghost predicate Minted(who: (string, nat), from: nat, end: nat, now: nat) {
    exists n: nat :: from <= n < end && who == (IdOf(n), now)
  }

  /** `now` keeps the first min(|was|, |is|) identities of `was`, the rest being minted. */
  ghost predicate Keeps(was: seq<(string, nat)>, is_: seq<(string, nat)>, from: nat, end: nat, now: nat) {
    var kept := Min(|was|, |is_|);
    is_[..kept] == was[..kept] && forall i | kept <= i < |is_| :: Minted(is_[i], from, end, now)
  }

  lemma {:induction false} KeepsKnown(who: seq<(string, nat)>, was: seq<(string, nat)>, is_: seq<(string, nat)>,
                                      from: nat, end: nat, now: nat)
    requires Keeps(was, is_, from, end, now)
    ensures Keeps(who + was, who + is_, from, end, now)
  {
    var kept := Min(|was|, |is_|);
    assert (who + is_)[..|who| + kept] == who + is_[..kept];
    assert (who + was)[..|who| + kept] == who + was[..kept];
  }

  /** A minted identity goes in front of a content nobody held before. */
  lemma {:induction false} KeepsMinted(was: seq<(string, nat)>, is_: seq<(string, nat)>, mine: bool,
                                       n: nat, end: nat, now: nat)
    requires Keeps(was, is_, n + 1, end, now) && n < end && (mine ==> was == [])
    ensures Keeps(was, (if mine then [(IdOf(n), now)] else []) + is_, n, end, now)
  {
    var t := (if mine then [(IdOf(n), now)] else []) + is_;
    var kept := Min(|was|, |is_|);
    assert !mine ==> t == is_;
    forall i | Min(|was|, |t|) <= i < |t| ensures Minted(t[i], n, end, now) {
      if mine && i == 0 {
        assert t[0] == (IdOf(n), now);
      } else {
        var j := if mine then i - 1 else i;
        assert Minted(is_[j], n + 1, end, now);
        var m: nat :| n + 1 <= m < end && is_[j] == (IdOf(m), now);
      }
    }
  }

  lemma {:induction false} IdentitiesCons(x: Todo, rest: seq<Todo>, content: string)
    ensures Identities([x] + rest, content)
         == (if x.content == content then [(x.id, x.created)] else []) + Identities(rest, content)
  {
    assert ([x] + rest)[1..] == rest;
  }

  /** Rewriting the list keeps, for each content, exactly min(old count, new count)
      identities with their creation times, oldest claims first. */
  lemma {:induction false} RewriteKeepsIdentities(prior: seq<Todo>, specs: seq<Spec>, nextId: nat, now: nat, content: string)
    requires Rewrite(prior, specs, nextId, now).Ok?
    ensures var w := Rewrite(prior, specs, nextId, now).value;
            && nextId <= w.nextId && |w.items| == |specs|
            && Keeps(Identities(prior, content), Identities(w.items, content), nextId, w.nextId, now)
    decreases |specs|
  {
    if specs != [] {
      var w := Rewrite(prior, specs, nextId, now).value;
      var f := ItemSpec(specs[0]).value;
      var left, id := Unclaimed(prior, f), NextId(prior, f, nextId);
      var x, rest := Claim(prior, f, nextId, now), Rewrite(left, specs[1..], id, now).value;
      RewriteKeepsIdentities(left, specs[1..], id, now, content);
      IdentitiesCons(x, rest.items, content);
      ClaimKeeps(prior, f, nextId, now, content, Identities(rest.items, content), w.nextId);
    }
  }

  lemma {:induction false} ClaimKeeps(prior: seq<Todo>, f: Fields, nextId: nat, now: nat, content: string,
                                      later: seq<(string, nat)>, end: nat)
    requires Keeps(Identities(Unclaimed(prior, f), content), later, NextId(prior, f, nextId), end, now)
    requires NextId(prior, f, nextId) <= end
    ensures var x := Claim(prior, f, nextId, now);
            Keeps(Identities(prior, content),
                  (if x.content == content then [(x.id, x.created)] else []) + later, nextId, end, now)
  {
    var k := FindContent(prior, f.content);
    if k < |prior| {
      IdentitiesWithout(prior, k, content);
      KeepsKnown(if content == f.content then [(prior[k].id, prior[k].created)] else [],
                 Identities(Without(prior, k), content), later, nextId, end, now);
    } else {
      if content == f.content { NoIdentities(prior, content); }
      KeepsMinted(Identities(prior, content), later, content == f.content, nextId, end, now);
    }
  }

  // --- adding and updating ---------------------------------------------------------------

  function Appended(items: seq<Todo>, specs: seq<Spec>, nextId: nat, now: nat): Result<Rewritten, string>
    decreases specs
  {
    if specs == [] then Ok(Rewritten(items, nextId)) else
    var f := ItemSpec(specs[0]);
    if f.Err? then Err(f.error)
    else Appended(items + [Todo(IdOf(nextId), f.value.content, f.value.activeForm, f.value.status, now, now)],
                  specs[1..], nextId + 1, now)
  }

  function FindId(items: seq<Todo>, id: string): (k: nat)
    ensures k <= |items| && (k < |items| ==> items[k].id == id)
    ensures forall j | 0 <= j < k :: items[j].id != id
  { if items == [] || items[0].id == id then 0 else 1 + FindId(items[1..], id) }

  /** A blank id is no id, and an id wins over an index. */
  function ResolveTarget(change: Change, items: seq<Todo>): (r: Result<nat, string>)
    ensures r.Ok? ==> r.value < |items|
    ensures r.Ok? && change.id.Some? && Trim(change.id.value) != "" ==> items[r.value].id == Trim(change.id.value)
  {
    var id := Trim(Default(change.id, ""));
    if id != "" then
      var k := FindId(items, id);
      if k < |items| then Ok(k) else Err("no todo '" + id + "'")
    else if change.index.Some? then
      var index := change.index.value;
      if index == 0 || index > |items| then Err("todo index " + Dec(index) + " is out of range")
      else Ok((index - 1) as nat)
    else Err("each update must name the todo to change, with either id or index")
  }

  function ChangeItem(item: Todo, change: Change, now: nat): Result<Todo, string> {
    var status := if change.status.Some? then ParseStatus(change.status.value) else Ok(item.status);
    if status.Err? then Err(status.error) else
    var content := if change.content.Some? then Trim(change.content.value) else item.content;
    if change.content.Some? && (content == "" || ByteLength(content) > MAX_CONTENT) then
      Err("todo content must be 1..=200 bytes")
    else Ok(item.(status := status.value, content := content,
                  activeForm := if change.activeForm.Some? then Trim(change.activeForm.value) else item.activeForm,
                  updated := now))
  }

  function Changed(items: seq<Todo>, changes: seq<Change>, now: nat): Result<seq<Todo>, string>
    decreases changes
  {
    if changes == [] then Ok(items) else
    var k := ResolveTarget(changes[0], items);
    if k.Err? then Err(k.error) else
    var item := ChangeItem(items[k.value], changes[0], now);
    if item.Err? then Err(item.error) else Changed(items[k.value := item.value], changes[1..], now)
  }

  // --- what the calls mean ------------------------------------------------------------------

  /** The words a status may be given in. */
  function WordsFor(status: Status): set<string> {
    match status
    case Pending => {"pending"}
    case InProgress => {"in_progress", "in-progress"}
    case Completed => {"completed", "done"}
    case Cancelled => {"cancelled", "canceled"}
  }

  lemma {:induction false} StatusIff(word: string, status: Status)
    ensures ParseStatus(word) == Ok(status) <==> word in WordsFor(status)
  {}

  predicate Wording(text: string) { text != "" && ByteLength(text) <= MAX_CONTENT }

  /** The fields one item of a call spells out. */
  ghost predicate SpecReads(spec: Spec, f: Fields) {
    && spec.content.Some? && f.content == Trim(spec.content.value) && Wording(f.content)
    && f.activeForm == (if spec.activeForm.Some? then Trim(spec.activeForm.value) else "")
    && if spec.status.Some? then spec.status.value in WordsFor(f.status)
       else f.status == Pending
  }

  lemma {:induction false} SpecIff(spec: Spec, f: Fields)
    ensures ItemSpec(spec) == Ok(f) <==> SpecReads(spec, f)
    ensures ItemSpec(spec).Ok? ==> SpecReads(spec, ItemSpec(spec).value)
  {
    StatusIff(Default(spec.status, "pending"), f.status);
    assert Trim("") == "";
    assert ParseStatus("pending") == Ok(Pending);
    hide ParseStatus, Trim, ByteLength, WordsFor;
    if ItemSpec(spec).Ok? {
      StatusIff(Default(spec.status, "pending"), ItemSpec(spec).value.status);
    }
  }

  /** The item a change is about: by id, or else by its place counted from one. */
  ghost predicate Names(change: Change, items: seq<Todo>, k: nat) {
    k < |items| &&
    if change.id.Some? && Trim(change.id.value) != ""
    then items[k].id == Trim(change.id.value) && forall j | 0 <= j < k :: items[j].id != items[k].id
    else change.index == Some(k + 1)
  }

  /** An item after a change: what the change names is replaced, the rest kept. */
  ghost predicate Becomes(was: Todo, change: Change, now: nat, is_: Todo) {
    && is_.id == was.id && is_.created == was.created && is_.updated == now
    && (if change.status.Some? then change.status.value in WordsFor(is_.status)
        else is_.status == was.status)
    && (if change.content.Some? then is_.content == Trim(change.content.value) && Wording(is_.content)
        else is_.content == was.content)
    && is_.activeForm == if change.activeForm.Some? then Trim(change.activeForm.value) else was.activeForm
  }

  ghost predicate ChangedAt(was: seq<Todo>, change: Change, now: nat, is_: seq<Todo>, k: nat) {
    && |is_| == |was| && Names(change, was, k) && Becomes(was[k], change, now, is_[k])
    && forall j | 0 <= j < |was| && j != k :: is_[j] == was[j]
  }

  ghost predicate ChangesTo(was: seq<Todo>, change: Change, now: nat, is_: seq<Todo>) {
    exists k: nat :: ChangedAt(was, change, now, is_, k)
  }

  /** Lists from the first to the last change, each one change apart. */
  ghost predicate Changing(lists: seq<seq<Todo>>, changes: seq<Change>, now: nat) {
    |lists| == |changes| + 1 && forall i | 0 <= i < |changes| :: ChangesTo(lists[i], changes[i], now, lists[i + 1])
  }

  ghost predicate Leads(items: seq<Todo>, changes: seq<Change>, now: nat, after: seq<Todo>) {
    exists lists: seq<seq<Todo>> :: Changing(lists, changes, now) && lists[0] == items && lists[|changes|] == after
  }

  lemma {:induction false} TargetIff(change: Change, items: seq<Todo>, k: nat)
    ensures ResolveTarget(change, items) == Ok(k) <==> Names(change, items, k)
  {
    assert Trim("") == "";
    hide Trim;
    var id := Default(change.id, "");
  }

  lemma {:induction false} ItemIff(was: Todo, change: Change, now: nat, is_: Todo)
    ensures ChangeItem(was, change, now) == Ok(is_) <==> Becomes(was, change, now, is_)
  {
    if change.status.Some? { StatusIff(change.status.value, is_.status); }
    hide ParseStatus, Trim, ByteLength, WordsFor;
  }

  /** One change takes effect exactly when it names an item and can be read. */
  lemma {:induction false} StepIff(was: seq<Todo>, change: Change, now: nat, is_: seq<Todo>)
    ensures ChangesTo(was, change, now, is_) <==>
              && ResolveTarget(change, was).Ok?
              && var k := ResolveTarget(change, was).value;
                 var item := ChangeItem(was[k], change, now);
                 item.Ok? && is_ == was[k := item.value]
  {
    if k: nat :| ChangedAt(was, change, now, is_, k) {
      TargetIff(change, was, k);
      ItemIff(was[k], change, now, is_[k]);
      hide ResolveTarget, ChangeItem, Names, Becomes;
      assert is_ == was[k := is_[k]];
    }
    if ResolveTarget(change, was).Ok? {
      var k := ResolveTarget(change, was).value;
      TargetIff(change, was, k);
      if ChangeItem(was[k], change, now).Ok? {
        ItemIff(was[k], change, now, ChangeItem(was[k], change, now).value);
        hide ResolveTarget, ChangeItem, Names, Becomes;
        if is_ == was[k := ChangeItem(was[k], change, now).value] { assert ChangedAt(was, change, now, is_, k); }
      }
    }
  }

  /** A call's changes lead from one list to another exactly when each takes effect on
      what the ones before it left. */
  lemma {:induction false} ChangedIff(items: seq<Todo>, changes: seq<Change>, now: nat, after: seq<Todo>)
    ensures Changed(items, changes, now) == Ok(after) <==> Leads(items, changes, now, after)
    decreases |changes|
  {
    hide ResolveTarget, ChangeItem, ChangesTo;
    if changes == [] {
      if Changed(items, changes, now) == Ok(after) { assert Changing([items], changes, now); }
    } else {
      if Changed(items, changes, now) == Ok(after) {
        var k := ResolveTarget(changes[0], items).value;
        var next := items[k := ChangeItem(items[k], changes[0], now).value];
        StepIff(items, changes[0], now, next);
        ChangedIff(next, changes[1..], now, after);
        LeadsCons(items, next, changes, now, after);
      }
      if Leads(items, changes, now, after) {
        var next := LeadsFirst(items, changes, now, after);
        StepIff(items, changes[0], now, next);
        ChangedIff(next, changes[1..], now, after);
      }
    }
  }

  lemma {:induction false} LeadsCons(items: seq<Todo>, next: seq<Todo>, changes: seq<Change>, now: nat, after: seq<Todo>)
    requires changes != [] && Leads(next, changes[1..], now, after)
    requires ChangesTo(items, changes[0], now, next)
    ensures Leads(items, changes, now, after)
  {
    hide ChangesTo;
    var lists: seq<seq<Todo>> :| Changing(lists, changes[1..], now) && lists[0] == next && lists[|changes[1..]|] == after;
    var all := [items] + lists;
    forall i | 0 <= i < |changes| ensures ChangesTo(all[i], changes[i], now, all[i + 1]) {
      if i > 0 { assert all[i] == lists[i - 1] && all[i + 1] == lists[i] && changes[i] == changes[1..][i - 1]; }
    }
    assert Changing(all, changes, now);
  }

  lemma {:induction false} LeadsFirst(items: seq<Todo>, changes: seq<Change>, now: nat, after: seq<Todo>) returns (next: seq<Todo>)
    requires changes != [] && Leads(items, changes, now, after)
    ensures Leads(next, changes[1..], now, after) && ChangesTo(items, changes[0], now, next)
  {
    hide ChangesTo;
    var lists: seq<seq<Todo>> :| Changing(lists, changes, now) && lists[0] == items && lists[|changes|] == after;
    next := lists[1];
    var rest := lists[1..];
    forall i | 0 <= i < |changes| - 1 ensures ChangesTo(rest[i], changes[1..][i], now, rest[i + 1]) {
      assert rest[i] == lists[i + 1] && rest[i + 1] == lists[i + 2] && changes[1..][i] == changes[i + 1];
    }
    assert Changing(rest, changes[1..], now);
  }

  /** A new item under the given number, reading as its spec. */
  ghost predicate NewItem(item: Todo, spec: Spec, n: nat, now: nat) {
    && SpecReads(spec, Fields(item.content, item.activeForm, item.status))
    && item.id == IdOf(n) && item.created == now && item.updated == now
  }

  ghost predicate Extended(items: seq<Todo>, specs: seq<Spec>, nextId: nat, now: nat, w: Rewritten) {
    && w.nextId == nextId + |specs| && |w.items| == |items| + |specs| && items <= w.items
    && forall i | 0 <= i < |specs| :: NewItem(w.items[|items| + i], specs[i], nextId + i, now)
  }

  lemma {:induction false} AppendedIff(items: seq<Todo>, specs: seq<Spec>, nextId: nat, now: nat, w: Rewritten)
    ensures Appended(items, specs, nextId, now) == Ok(w) <==> Extended(items, specs, nextId, now, w)
    decreases |specs|
  {
    hide ItemSpec, SpecReads, IdOf;
    if specs == [] {
      if Extended(items, specs, nextId, now, w) { assert w.items == items; }
    } else {
      var f := ItemSpec(specs[0]);
      if f.Ok? {
        var x := Todo(IdOf(nextId), f.value.content, f.value.activeForm, f.value.status, now, now);
        SpecIff(specs[0], f.value);
        forall y: Todo | NewItem(y, specs[0], nextId, now) ensures y == x {
          SpecIff(specs[0], Fields(y.content, y.activeForm, y.status));
        }
        AppendedIff(items + [x], specs[1..], nextId + 1, now, w);
        ExtendedCons(items, x, specs, nextId, now, w);
      }
      if Extended(items, specs, nextId, now, w) {
        var y := w.items[|items|];
        assert NewItem(w.items[|items| + 0], specs[0], nextId + 0, now);
        SpecIff(specs[0], Fields(y.content, y.activeForm, y.status));
      }
    }
  }

  lemma {:induction false} ExtendedCons(items: seq<Todo>, x: Todo, specs: seq<Spec>, nextId: nat, now: nat, w: Rewritten)
    requires specs != [] && NewItem(x, specs[0], nextId, now)
    requires forall y: Todo :: NewItem(y, specs[0], nextId, now) ==> y == x
    ensures Extended(items + [x], specs[1..], nextId + 1, now, w) <==> Extended(items, specs, nextId, now, w)
  {
    hide NewItem;
    if Extended(items + [x], specs[1..], nextId + 1, now, w) {
      forall i | 0 <= i < |specs| ensures NewItem(w.items[|items| + i], specs[i], nextId + i, now) {
        if i > 0 { assert NewItem(w.items[|items + [x]| + (i - 1)], specs[1..][i - 1], nextId + 1 + (i - 1), now); }
      }
    }
    if Extended(items, specs, nextId, now, w) {
      assert NewItem(w.items[|items| + 0], specs[0], nextId + 0, now);
      assert items + [x] == w.items[..|items| + 1];
      forall i | 0 <= i < |specs[1..]| ensures NewItem(w.items[|items + [x]| + i], specs[1..][i], nextId + 1 + i, now) {
        assert NewItem(w.items[|items| + (i + 1)], specs[i + 1], nextId + (i + 1), now);
      }
    }
  }

  ghost predicate Readable(spec: Spec) { exists f :: SpecReads(spec, f) }
  ghost predicate AllReadable(specs: seq<Spec>) { forall i | 0 <= i < |specs| :: Readable(specs[i]) }

  lemma {:induction false} AllReadableCons(specs: seq<Spec>)
    requires specs != []
    ensures AllReadable(specs) <==> ItemSpec(specs[0]).Ok? && AllReadable(specs[1..])
    ensures ItemSpec(specs[0]).Ok? ==> SpecReads(specs[0], ItemSpec(specs[0]).value)
  {
    var r := ItemSpec(specs[0]);
    forall f ensures SpecReads(specs[0], f) <==> r == Ok(f) { SpecIff(specs[0], f); }
    hide ItemSpec, SpecReads;
    assert Readable(specs[0]) <==> r.Ok?;
    hide Readable;
    forall i | 0 <= i < |specs| ensures Readable(specs[i]) <==> if i == 0 then r.Ok? else Readable(specs[1..][i - 1]) {}
    if AllReadable(specs) { forall i | 0 <= i < |specs[1..]| ensures Readable(specs[1..][i]) { assert specs[i + 1] == specs[1..][i]; } }
  }

  /** A rewritten list reads as its specs, and is refused exactly when one of them
      cannot be read. */
  lemma {:induction false} RewriteReads(prior: seq<Todo>, specs: seq<Spec>, nextId: nat, now: nat)
    ensures Rewrite(prior, specs, nextId, now).Ok? <==> AllReadable(specs)
    ensures Rewrite(prior, specs, nextId, now).Ok? ==>
              var items := Rewrite(prior, specs, nextId, now).value.items;
              && |items| == |specs|
              && forall i | 0 <= i < |specs| ::
                   items[i].updated == now && SpecReads(specs[i], Fields(items[i].content, items[i].activeForm, items[i].status))
    decreases |specs|
  {
    if specs != [] {
      var f := ItemSpec(specs[0]);
      AllReadableCons(specs);
      hide ItemSpec, SpecReads, Unclaimed, NextId, AllReadable;
      if f.Ok? { RewriteReads(Unclaimed(prior, f.value), specs[1..], NextId(prior, f.value, nextId), now); }
    }
  }

  // --- the stored list ---------------------------------------------------------------------

  datatype Op =
    | Write(specs: seq<Spec>, now: nat, stored: nat)
    | Add(specs: seq<Spec>, now: nat, stored: nat)
    | Update(changes: seq<Change>, now: nat, stored: nat)

  function Stored(list: TodoList, at: nat): Result<TodoList, string> {
    if |list.items| > MAX_ITEMS then Err("a todo list may contain at most 50 items")
    else Ok(list.(revision := list.revision + 1, updated := at))
  }

  /** What one call computes from the stored list. */
  function Outcome(list: TodoList, op: Op): Result<TodoList, string> {
    match op
    case Write(specs, now, stored) =>
      if |specs| > MAX_ITEMS then Err("a todo list may contain at most 50 items") else
      var w := Rewrite(list.items, specs, list.nextId, now);
      if w.Err? then Err(w.error)
      else Stored(list.(items := w.value.items, nextId := w.value.nextId), stored)
    case Add(specs, now, stored) =>
      if specs == [] then Err("give at least one todo to add")
      else if |list.items| + |specs| > MAX_ITEMS then Err("a todo list may contain at most 50 items") else
      var w := Appended(list.items, specs, list.nextId, now);
      if w.Err? then Err(w.error)
      else Stored(list.(items := w.value.items, nextId := w.value.nextId), stored)
    case Update(changes, now, stored) =>
      if changes == [] then Err("give at least one todo update")
      else if list.items == [] then Err("there is no todo list yet") else
      var items := Changed(list.items, changes, now);
      if items.Err? then Err(items.error) else Stored(list.(items := items.value), stored)
  }

  /** A stored list after a whole-list call. */
  ghost predicate Writes(list: TodoList, specs: seq<Spec>, now: nat, stored: nat, next: TodoList) {
    && |specs| <= MAX_ITEMS && |next.items| == |specs| && list.nextId <= next.nextId
    && next.revision == list.revision + 1 && next.updated == stored
    && (forall i | 0 <= i < |specs| ::
          next.items[i].updated == now
          && SpecReads(specs[i], Fields(next.items[i].content, next.items[i].activeForm, next.items[i].status)))
    && forall content :: Keeps(Identities(list.items, content), Identities(next.items, content), list.nextId, next.nextId, now)
  }

  /** After an adding call: the old items, then one new item a spec. */
  ghost predicate Adds(list: TodoList, specs: seq<Spec>, now: nat, stored: nat, next: TodoList) {
    && specs != [] && |list.items| + |specs| <= MAX_ITEMS
    && Extended(list.items, specs, list.nextId, now, Rewritten(next.items, next.nextId))
    && next.revision == list.revision + 1 && next.updated == stored
  }

  /** After an updating call: every change in turn. */
  ghost predicate Updates(list: TodoList, changes: seq<Change>, now: nat, stored: nat, next: TodoList) {
    && changes != [] && list.items != [] && |next.items| <= MAX_ITEMS
    && Leads(list.items, changes, now, next.items)
    && next.nextId == list.nextId && next.revision == list.revision + 1 && next.updated == stored
  }

  lemma {:induction false} WriteMeans(list: TodoList, specs: seq<Spec>, now: nat, stored: nat)
    ensures Outcome(list, Write(specs, now, stored)).Ok? <==> |specs| <= MAX_ITEMS && AllReadable(specs)
    ensures Outcome(list, Write(specs, now, stored)).Ok? ==>
              Writes(list, specs, now, stored, Outcome(list, Write(specs, now, stored)).value)
  {
    RewriteReads(list.items, specs, list.nextId, now);
    var w := Rewrite(list.items, specs, list.nextId, now);
    hide Rewrite, AllReadable, Identities, Keeps, SpecReads;
    if w.Ok? {
      RewriteKeepsIdentities(list.items, specs, list.nextId, now, "");
      forall content ensures Keeps(Identities(list.items, content), Identities(w.value.items, content), list.nextId, w.value.nextId, now) {
        RewriteKeepsIdentities(list.items, specs, list.nextId, now, content);
      }
    }
  }

  lemma {:induction false} AddMeans(list: TodoList, specs: seq<Spec>, now: nat, stored: nat, next: TodoList)
    ensures Outcome(list, Add(specs, now, stored)) == Ok(next) <==> Adds(list, specs, now, stored, next)
    ensures Outcome(list, Add(specs, now, stored)).Ok? ==>
              Adds(list, specs, now, stored, Outcome(list, Add(specs, now, stored)).value)
  {
    var w := Appended(list.items, specs, list.nextId, now);
    AppendedIff(list.items, specs, list.nextId, now, Rewritten(next.items, next.nextId));
    if w.Ok? { AppendedIff(list.items, specs, list.nextId, now, w.value); }
    hide Appended, NewItem;
  }

  lemma {:induction false} UpdateMeans(list: TodoList, changes: seq<Change>, now: nat, stored: nat, next: TodoList)
    ensures Outcome(list, Update(changes, now, stored)) == Ok(next) <==> Updates(list, changes, now, stored, next)
    ensures Outcome(list, Update(changes, now, stored)).Ok? ==>
              Updates(list, changes, now, stored, Outcome(list, Update(changes, now, stored)).value)
  {
    var items := Changed(list.items, changes, now);
    ChangedIff(list.items, changes, now, next.items);
    if items.Ok? { ChangedIff(list.items, changes, now, items.value); }
    hide Changed, Leads;
  }

  /** The session store's entry, rewritten only through these methods. */
  class TodoStore {
    var list: TodoList

    constructor ()
      ensures list == EMPTY
    { list := EMPTY; }

    method WriteAll(specs: seq<Spec>, now: nat, stored: nat) returns (r: Result<TodoList, string>)
      modifies this
      ensures r.Ok? == Outcome(old(list), Write(specs, now, stored)).Ok?
      ensures r.Ok? ==> r == Outcome(old(list), Write(specs, now, stored)) && list == r.value
      ensures r.Ok? <==> |specs| <= MAX_ITEMS && AllReadable(specs)
      ensures r.Ok? ==> Writes(old(list), specs, now, stored, r.value)
      ensures r.Err? ==> list == old(list)
    {
      WriteMeans(list, specs, now, stored);
      hide AllReadable, Writes;
      var next := Replace(list, specs, now);
      if next.Err? { return Err(next.error); }
      r := Stored(next.value, stored);
      if r.Ok? { list := r.value; }
    }

    method AddAll(specs: seq<Spec>, now: nat, stored: nat) returns (r: Result<TodoList, string>)
      modifies this
      ensures r.Ok? == Outcome(old(list), Add(specs, now, stored)).Ok?
      ensures r.Ok? ==> r == Outcome(old(list), Add(specs, now, stored)) && list == r.value
      ensures r.Ok? ==> Adds(old(list), specs, now, stored, r.value)
      ensures r.Err? ==> forall next :: !Adds(old(list), specs, now, stored, next)
      ensures r.Err? ==> list == old(list)
    {
      forall next ensures Outcome(list, Add(specs, now, stored)) == Ok(next) <==> Adds(list, specs, now, stored, next) {
        AddMeans(list, specs, now, stored, next);
      }
      hide Adds;
      if specs == [] { return Err("give at least one todo to add"); }
      if |list.items| + |specs| > MAX_ITEMS { return Err("a todo list may contain at most 50 items"); }
      var items, nextId := list.items, list.nextId;
      for i := 0 to |specs|
        invariant list == old(list)
        invariant Appended(items, specs[i..], nextId, now) == Appended(list.items, specs, list.nextId, now)
      {
        assert specs[i..][0] == specs[i] && specs[i..][1..] == specs[i + 1..];
        var f := ItemSpec(specs[i]);
        if f.Err? { return Err(f.error); }
        items := items + [Todo(IdOf(nextId), f.value.content, f.value.activeForm, f.value.status, now, now)];
        nextId := nextId + 1;
      }
      assert specs[|specs|..] == [];
      r := Stored(list.(items := items, nextId := nextId), stored);
      if r.Ok? { list := r.value; }
    }

    method UpdateAll(changes: seq<Change>, now: nat, stored: nat) returns (r: Result<TodoList, string>)
      modifies this
      ensures r.Ok? == Outcome(old(list), Update(changes, now, stored)).Ok?
      ensures r.Ok? ==> r == Outcome(old(list), Update(changes, now, stored)) && list == r.value
      ensures r.Ok? ==> Updates(old(list), changes, now, stored, r.value)
      ensures r.Err? ==> forall next :: !Updates(old(list), changes, now, stored, next)
      ensures r.Err? ==> list == old(list)
    {
      forall next ensures Outcome(list, Update(changes, now, stored)) == Ok(next) <==> Updates(list, changes, now, stored, next) {
        UpdateMeans(list, changes, now, stored, next);
      }
      hide Updates;
      if changes == [] { return Err("give at least one todo update"); }
      if list.items == [] { return Err("there is no todo list yet"); }
      var items := list.items;
      for i := 0 to |changes|
        invariant list == old(list)
        invariant Changed(items, changes[i..], now) == Changed(list.items, changes, now)
      {
        assert changes[i..][0] == changes[i] && changes[i..][1..] == changes[i + 1..];
        var k := ResolveTarget(changes[i], items);
        if k.Err? { return Err(k.error); }
        var item := ChangeItem(items[k.value], changes[i], now);
        if item.Err? { return Err(item.error); }
        items := items[k.value := item.value];
      }
      assert changes[|changes|..] == [];
      r := Stored(list.(items := items), stored);
      if r.Ok? { list := r.value; }
    }
  }

  // --- over every sequence of calls -----------------------------------------------------------

  ghost predicate MintedId(id: string, from: nat, end: nat) { exists n: nat :: from <= n < end && id == IdOf(n) }

  /** Every live id was minted below the counter, and no two items share one. */
  ghost predicate WellIdentified(items: seq<Todo>, nextId: nat) {
    && (forall i | 0 <= i < |items| :: MintedId(items[i].id, 1, nextId))
    && forall i, j | 0 <= i < j < |items| :: items[i].id != items[j].id
  }

  ghost predicate HasId(items: seq<Todo>, id: string) { exists i :: 0 <= i < |items| && items[i].id == id }

  /** Ids of the new list come from the old one or were minted by the call. */
  ghost predicate IdsFrom(was: seq<Todo>, is_: seq<Todo>, from: nat, end: nat) {
    forall id :: HasId(is_, id) ==> HasId(was, id) || MintedId(id, from, end)
  }

  lemma {:induction false} IdsFromChain(a: seq<Todo>, b: seq<Todo>, c: seq<Todo>, from: nat, mid: nat, end: nat)
    requires from <= mid <= end && IdsFrom(a, b, from, mid) && IdsFrom(b, c, mid, end)
    ensures IdsFrom(a, c, from, end)
  {
    hide HasId;
  }

  lemma {:induction false} HasIdCons(x: Todo, rest: seq<Todo>, id: string)
    ensures HasId([x] + rest, id) <==> x.id == id || HasId(rest, id)
  {
    if x.id == id { assert ([x] + rest)[0].id == id; }
    if HasId(rest, id) {
      var i :| 0 <= i < |rest| && rest[i].id == id;
      assert ([x] + rest)[i + 1].id == id;
    }
  }

  lemma {:induction false} WithoutIdentified(items: seq<Todo>, k: nat, nextId: nat)
    requires k < |items| && WellIdentified(items, nextId)
    ensures WellIdentified(Without(items, k), nextId) && !HasId(Without(items, k), items[k].id)
    ensures forall id :: HasId(Without(items, k), id) ==> HasId(items, id)
  {
    var w := Without(items, k);
    assert forall i | 0 <= i < |w| :: w[i] == items[if i < k then i else i + 1];
    forall id | HasId(w, id) ensures HasId(items, id) {
      var i :| 0 <= i < |w| && w[i].id == id;
      assert items[if i < k then i else i + 1].id == id;
    }
  }

  lemma {:induction false} FreshIdIsNew(items: seq<Todo>, nextId: nat, n: nat)
    requires WellIdentified(items, nextId) && n >= nextId
    ensures !HasId(items, IdOf(n))
  {
    forall i | 0 <= i < |items| ensures items[i].id != IdOf(n) {
      var m: nat :| 1 <= m < nextId && items[i].id == IdOf(m);
      if IdOf(m) == IdOf(n) { IdOfInjective(m, n); }
    }
  }

  lemma {:induction false} MintedIsNew(items: seq<Todo>, nextId: nat, id: string, from: nat, end: nat)
    requires WellIdentified(items, nextId) && MintedId(id, from, end) && from >= nextId
    ensures !HasId(items, id)
  {
    var n: nat :| from <= n < end && id == IdOf(n);
    FreshIdIsNew(items, nextId, n);
  }

  lemma {:induction false} ConsIdentified(x: Todo, rest: seq<Todo>, nextId: nat)
    requires WellIdentified(rest, nextId) && !HasId(rest, x.id)
    requires MintedId(x.id, 1, nextId)
    ensures WellIdentified([x] + rest, nextId)
  {
    var t := [x] + rest;
    forall j | 0 < j < |t| ensures t[j] == rest[j - 1] && t[j].id != x.id {
      assert rest[j - 1].id == x.id ==> HasId(rest, x.id);
    }
  }

  lemma {:induction false} RewriteIdentified(prior: seq<Todo>, specs: seq<Spec>, nextId: nat, now: nat)
    requires WellIdentified(prior, nextId) && nextId >= 1 && Rewrite(prior, specs, nextId, now).Ok?
    ensures var w := Rewrite(prior, specs, nextId, now).value;
            nextId <= w.nextId && WellIdentified(w.items, w.nextId) && IdsFrom(prior, w.items, nextId, w.nextId)
    decreases |specs|
  {
    if specs != [] {
      var w := Rewrite(prior, specs, nextId, now).value;
      var f := ItemSpec(specs[0]).value;
      var left, id := Unclaimed(prior, f), NextId(prior, f, nextId);
      var x, rest := Claim(prior, f, nextId, now), Rewrite(left, specs[1..], id, now).value;
      var k := FindContent(prior, f.content);
      if k < |prior| {
        WithoutIdentified(prior, k, nextId);
        RewriteIdentified(left, specs[1..], id, now);
        assert HasId(prior, x.id);
        if MintedId(x.id, nextId, w.nextId) { MintedIsNew(prior, nextId, x.id, nextId, w.nextId); }
      } else {
        RewriteIdentified(left, specs[1..], id, now);
        FreshIdIsNew(prior, nextId, nextId);
        NotMintedAbove(nextId, w.nextId);
        assert MintedId(x.id, nextId, w.nextId) && MintedId(x.id, 1, w.nextId);
      }
      ConsIdentified(x, rest.items, w.nextId);
      forall who | HasId(w.items, who) ensures HasId(prior, who) || MintedId(who, nextId, w.nextId) {
        HasIdCons(x, rest.items, who);
        if MintedId(who, id, w.nextId) {
          var m: nat :| id <= m < w.nextId && who == IdOf(m);
          assert MintedId(who, nextId, w.nextId);
        }
      }
    }
  }

  lemma {:induction false} NotMintedAbove(n: nat, end: nat)
    ensures !MintedId(IdOf(n), n + 1, end)
  {
    if m: nat :| n + 1 <= m < end && IdOf(n) == IdOf(m) { IdOfInjective(n, m); }
  }

  lemma {:induction false} AppendedIdentified(items: seq<Todo>, specs: seq<Spec>, nextId: nat, now: nat)
    requires WellIdentified(items, nextId) && nextId >= 1 && Appended(items, specs, nextId, now).Ok?
    ensures var w := Appended(items, specs, nextId, now).value;
            && nextId <= w.nextId && WellIdentified(w.items, w.nextId) && IdsFrom(items, w.items, nextId, w.nextId)
            && items <= w.items && |w.items| == |items| + |specs|
    decreases |specs|
  {
    if specs != [] {
      var f := ItemSpec(specs[0]).value;
      var x := Todo(IdOf(nextId), f.content, f.activeForm, f.status, now, now);
      var next, w := items + [x], Appended(items, specs, nextId, now).value;
      SnocIdentified(items, x, nextId);
      hide WellIdentified, IdsFrom, MintedId;
      AppendedIdentified(next, specs[1..], nextId + 1, now);
      IdsFromChain(items, next, w.items, nextId, nextId + 1, w.nextId);
    }
  }

  /** An item under the next id keeps ids distinct and adds only that one. */
  lemma {:induction false} SnocIdentified(items: seq<Todo>, x: Todo, nextId: nat)
    requires WellIdentified(items, nextId) && nextId >= 1 && x.id == IdOf(nextId)
    ensures WellIdentified(items + [x], nextId + 1) && IdsFrom(items, items + [x], nextId, nextId + 1)
  {
    FreshIdIsNew(items, nextId, nextId);
    forall i | 0 <= i < |items| ensures items[i].id != x.id { assert items[i].id == x.id ==> HasId(items, x.id); }
    var next := items + [x];
    forall id | HasId(next, id) ensures HasId(items, id) || MintedId(id, nextId, nextId + 1) {
      var i :| 0 <= i < |next| && next[i].id == id;
      if i < |items| { assert HasId(items, id); } else { assert MintedId(id, nextId, nextId + 1); }
    }
  }

  /** Updating never touches an identity, a creation time or the order. */
  lemma {:induction false} ChangedKeepsIdentity(items: seq<Todo>, changes: seq<Change>, now: nat)
    requires Changed(items, changes, now).Ok?
    ensures var is_ := Changed(items, changes, now).value;
            && |is_| == |items|
            && forall i | 0 <= i < |items| :: is_[i].id == items[i].id && is_[i].created == items[i].created
    decreases |changes|
  {
    if changes != [] {
      var k := ResolveTarget(changes[0], items).value;
      ChangedKeepsIdentity(items[k := ChangeItem(items[k], changes[0], now).value], changes[1..], now);
    }
  }

  ghost predicate Sound(list: TodoList) {
    list.nextId >= 1 && |list.items| <= MAX_ITEMS && WellIdentified(list.items, list.nextId)
  }

  lemma {:induction false} OutcomeSound(list: TodoList, op: Op)
    requires Sound(list) && Outcome(list, op).Ok?
    ensures var next := Outcome(list, op).value;
            && Sound(next) && next.revision == list.revision + 1 && list.nextId <= next.nextId
            && IdsFrom(list.items, next.items, list.nextId, next.nextId)
  {
    var next := Outcome(list, op).value;
    match op
    case Write(specs, now, _) => RewriteIdentified(list.items, specs, list.nextId, now);
    case Add(specs, now, _) => AppendedIdentified(list.items, specs, list.nextId, now);
    case Update(changes, now, _) =>
      ChangedKeepsIdentity(list.items, changes, now);
      forall id | HasId(next.items, id) ensures HasId(list.items, id) {
        var i :| 0 <= i < |next.items| && next.items[i].id == id;
        assert list.items[i].id == id;
      }
  }

  /** A history of stored lists: each call stored its outcome or left the list alone. */
  ghost predicate History(lists: seq<TodoList>, ops: seq<Op>) {
    && |lists| == |ops| + 1 && lists[0] == EMPTY
    && forall i | 0 <= i < |ops| ::
         lists[i + 1] == if Outcome(lists[i], ops[i]).Ok? then Outcome(lists[i], ops[i]).value else lists[i]
  }

  lemma {:induction false} HistorySound(lists: seq<TodoList>, ops: seq<Op>, n: nat)
    requires History(lists, ops) && n <= |ops|
    ensures Sound(lists[n])
  {
    if n > 0 {
      HistorySound(lists, ops, n - 1);
      if Outcome(lists[n - 1], ops[n - 1]).Ok? { OutcomeSound(lists[n - 1], ops[n - 1]); }
    }
  }

  lemma {:induction false} NextIds(lists: seq<TodoList>, ops: seq<Op>, n: nat)
    requires History(lists, ops) && n < |ops|
    ensures lists[n].nextId <= lists[n + 1].nextId
    ensures IdsFrom(lists[n].items, lists[n + 1].items, lists[n].nextId, lists[n + 1].nextId)
  {
    HistorySound(lists, ops, n);
    if Outcome(lists[n], ops[n]).Ok? { OutcomeSound(lists[n], ops[n]); }
    hide Outcome, WellIdentified, HasId;
  }

  lemma {:induction false} LaterIds(lists: seq<TodoList>, ops: seq<Op>, j: nat, n: nat)
    requires History(lists, ops) && j <= n <= |ops|
    ensures lists[j].nextId <= lists[n].nextId
    ensures IdsFrom(lists[j].items, lists[n].items, lists[j].nextId, lists[n].nextId)
    decreases n - j
  {
    if j < n {
      NextIds(lists, ops, n - 1);
      hide Outcome, History, HasId, IdsFrom;
      LaterIds(lists, ops, j, n - 1);
      IdsFromChain(lists[j].items, lists[n - 1].items, lists[n].items, lists[j].nextId, lists[n - 1].nextId, lists[n].nextId);
    }
  }

  /** An id once dropped never names an item again. */
  lemma {:induction false} DroppedIdNeverReturns(lists: seq<TodoList>, ops: seq<Op>, i: nat, j: nat, n: nat, id: string)
    requires History(lists, ops) && i <= j <= n <= |ops|
    requires HasId(lists[i].items, id) && !HasId(lists[j].items, id)
    ensures !HasId(lists[n].items, id)
  {
    HistorySound(lists, ops, i);
    LaterIds(lists, ops, i, j);
    LaterIds(lists, ops, j, n);
    if MintedId(id, lists[j].nextId, lists[n].nextId) {
      MintedIsNew(lists[i].items, lists[i].nextId, id, lists[j].nextId, lists[n].nextId);
    }
  }

  // --- the reminder -------------------------------------------------------------------------------

  function OpenItems(items: seq<Todo>): seq<Todo> {
    if items == [] then [] else (if items[0].status.IsOpen() then [items[0]] else []) + OpenItems(items[1..])
  }

  function Fingerprint(list: TodoList): string {
    Join(seq(|list.items|, i requires 0 <= i < |list.items| =>
           list.items[i].id + "=" + list.items[i].status.Name()), ";")
  }

  function NudgeText(unfinished: seq<Todo>, total: nat, last: bool): string {
    var names := Join(seq(|unfinished|, i requires 0 <= i < |unfinished| =>
                            unfinished[i].content + " (" + unfinished[i].id + ")"), ", ");
    "The turn is ending with " + Dec(|unfinished|) + " of " + Dec(total) + " todos still open: " + names + NudgeEnding(last)
  }

  function NudgeEnding(last: bool): string {
    ". Either carry on with the next one, or — if the work is genuinely finished or no longer wanted — "
    + "mark them completed or cancelled with todo_update and say briefly why. "
    + "Do not re-report work you have already done."
    + (if last then " This is the last reminder for this turn." else "")
  }

  /** The reminder a clean stop earns, with the fingerprint that silences the next. */
  function NudgeFor(list: TodoList, nudges: nat, previous: string, maxNudges: nat): (r: Option<(string, string)>)
    ensures r.Some? ==> nudges < maxNudges && r.value.1 != previous && OpenItems(list.items) != []
  {
    var unfinished := OpenItems(list.items);
    if nudges >= maxNudges || unfinished == [] || Fingerprint(list) == previous then None
    else Some((NudgeText(unfinished, |list.items|, nudges + 1 == maxNudges), Fingerprint(list)))
  }

  lemma {:induction false} OpenItemsHas(items: seq<Todo>, item: Todo)
    ensures item in OpenItems(items) <==> item in items && (item.status.Pending? || item.status.InProgress?)
  {
    if items != [] {
      OpenItemsHas(items[1..], item);
      assert items == [items[0]] + items[1..];
    }
  }

  /** A reminder is due exactly while the bound is not reached, something is still open
      and the states of the items moved since the last one. */
  lemma {:induction false} NudgeForIff(list: TodoList, nudges: nat, previous: string, maxNudges: nat)
    ensures NudgeFor(list, nudges, previous, maxNudges).Some? <==>
              && nudges < maxNudges && Fingerprint(list) != previous
              && exists i :: 0 <= i < |list.items| && (list.items[i].status.Pending? || list.items[i].status.InProgress?)
    ensures NudgeFor(list, nudges, previous, maxNudges).Some? ==>
              NudgeFor(list, nudges, previous, maxNudges).value.1 == Fingerprint(list)
  {
    hide Fingerprint, OpenItems, NudgeText;
    var left := OpenItems(list.items);
    if left != [] { OpenItemsHas(list.items, left[0]); }
    if i :| 0 <= i < |list.items| && (list.items[i].status.Pending? || list.items[i].status.InProgress?) {
      OpenItemsHas(list.items, list.items[i]);
    }
  }

  predicate Plain(part: string) { part != "" && ';' !in part }

  lemma {:induction false} PartEnds(a: string, x: string, sep: char)
    requires sep !in a
    ensures (a + [sep] + x)[|a|] == sep && forall k | 0 <= k < |a| :: (a + [sep] + x)[k] != sep
  {}

  lemma {:induction false} FirstPart(a: string, x: string, b: string, y: string, sep: char)
    requires sep !in a && sep !in b && a + [sep] + x == b + [sep] + y
    ensures a == b && x == y
  {
    var l, r := a + [sep] + x, b + [sep] + y;
    PartEnds(a, x, sep);
    PartEnds(b, y, sep);
    assert a == l[..|a|] && b == r[..|b|] && x == l[|a| + 1..] && y == r[|b| + 1..];
  }

  lemma {:induction false} JoinHead(parts: seq<string>)
    requires forall i | 0 <= i < |parts| :: Plain(parts[i])
    ensures parts == [] <==> Join(parts, ";") == ""
    ensures |parts| > 1 ==> ';' in Join(parts, ";") && Join(parts, ";") == parts[0] + [';'] + Join(parts[1..], ";")
    ensures |parts| == 1 ==> ';' !in Join(parts, ";")
  {
    if |parts| > 1 { assert (parts[0] + ";" + Join(parts[1..], ";"))[|parts[0]|] == ';'; }
  }

  /** Joined parts can be told apart again. */
  lemma {:induction false} JoinInjective(a: seq<string>, b: seq<string>)
    requires (forall i | 0 <= i < |a| :: Plain(a[i])) && (forall i | 0 <= i < |b| :: Plain(b[i]))
    requires Join(a, ";") == Join(b, ";")
    ensures a == b
  {
    JoinHead(a);
    JoinHead(b);
    if |a| > 1 {
      FirstPart(a[0], Join(a[1..], ";"), b[0], Join(b[1..], ";"), ';');
      JoinInjective(a[1..], b[1..]);
      assert a == [a[0]] + a[1..] && b == [b[0]] + b[1..];
    }
  }

  function Mark(item: Todo): string { item.id + "=" + item.status.Name() }

  lemma {:induction false} MarkTells(x: Todo, y: Todo)
    requires '=' !in x.id && '=' !in y.id && Mark(x) == Mark(y)
    ensures x.id == y.id && x.status == y.status
  {
    FirstPart(x.id, x.status.Name(), y.id, y.status.Name(), '=');
  }

  lemma {:induction false} MarkIsPlain(x: Todo)
    requires ';' !in x.id
    ensures Plain(Mark(x))
  {
    assert ';' !in x.status.Name();
    assert Mark(x)[|x.id|] == '=';
  }

  /** A fingerprint follows ids and states alone: it is the same exactly when those are,
      whatever became of the wording. */
  lemma {:induction false} FingerprintIff(a: TodoList, b: TodoList)
    requires forall i | 0 <= i < |a.items| :: ';' !in a.items[i].id && '=' !in a.items[i].id
    requires forall i | 0 <= i < |b.items| :: ';' !in b.items[i].id && '=' !in b.items[i].id
    ensures Fingerprint(a) == Fingerprint(b) <==>
              && |a.items| == |b.items|
              && forall i | 0 <= i < |a.items| :: a.items[i].id == b.items[i].id && a.items[i].status == b.items[i].status
  {
    var p := seq(|a.items|, i requires 0 <= i < |a.items| => Mark(a.items[i]));
    var q := seq(|b.items|, i requires 0 <= i < |b.items| => Mark(b.items[i]));
    assert p == seq(|a.items|, i requires 0 <= i < |a.items| => a.items[i].id + "=" + a.items[i].status.Name());
    assert q == seq(|b.items|, i requires 0 <= i < |b.items| => b.items[i].id + "=" + b.items[i].status.Name());
    forall i | 0 <= i < |p| ensures Plain(p[i]) { MarkIsPlain(a.items[i]); }
    forall i | 0 <= i < |q| ensures Plain(q[i]) { MarkIsPlain(b.items[i]); }
    if Fingerprint(a) == Fingerprint(b) {
      JoinInjective(p, q);
      forall i | 0 <= i < |a.items| ensures a.items[i].id == b.items[i].id && a.items[i].status == b.items[i].status {
        assert p[i] == q[i];
        MarkTells(a.items[i], b.items[i]);
      }
    }
    if |a.items| == |b.items| && forall i | 0 <= i < |a.items| :: a.items[i].id == b.items[i].id && a.items[i].status == b.items[i].status {
      assert p == q;
    }
  }

  /** A reminder names every item still open, with its id. */
  lemma {:induction false} NudgeNames(list: TodoList, nudges: nat, previous: string, maxNudges: nat, item: Todo)
    requires NudgeFor(list, nudges, previous, maxNudges).Some?
    requires item in list.items && item.status.IsOpen()
    ensures Mentions(NudgeFor(list, nudges, previous, maxNudges).value.0, item.content + " (" + item.id + ")")
  {
    hide NudgeText, OpenItems, Fingerprint, Mentions;
    OpenItemsHas(list.items, item);
    var left := OpenItems(list.items);
    var i :| 0 <= i < |left| && left[i] == item;
    TextNames(left, |list.items|, nudges + 1 == maxNudges, i);
  }

  lemma {:induction false} TextNames(left: seq<Todo>, total: nat, last: bool, i: nat)
    requires i < |left|
    ensures Mentions(NudgeText(left, total, last), left[i].content + " (" + left[i].id + ")")
  {
    var named := seq(|left|, k requires 0 <= k < |left| => left[k].content + " (" + left[k].id + ")");
    JoinMentions(named, ", ", i);
    hide Join, Dec, Mentions, NudgeEnding;
    var front := "The turn is ending with " + Dec(|left|) + " of " + Dec(total) + " todos still open: ";
    var back := NudgeEnding(last);
    assert NudgeText(left, total, last) == front + Join(named, ", ") + back;
    MentionsInside(front, Join(named, ", "), back, named[i]);
  }
}
