/** The POST webhook route (app.py:90-140): the walk over entries, changes and
    messages, the actions it starts, and the reply Flask sends. */
module Webhook {
  import opened Wrappers
  import opened Json
  import opened Commands
  import opened Http

  /** What running (part of) the handler did: the actions it started, in order,
      and whether an exception escaped afterwards. Actions started before an
      exception are not undone. */
  datatype Run = Run(effects: seq<Action>, raised: bool) {
    /** `this` followed by `next`; nothing after an exception runs. */
    function Then(next: Run): Run {
      if raised then this else Run(effects + next.effects, next.raised)
    }
  }

  const Raise: Run := Run([], true)

  function StepRun(s: Step): Run {
    match s
    case Emit(a) => Run([a], false)
    case Skip => Run([], false)
    case Crash => Raise
  }

  /** `for x in xs: f(x)`, with an exception in one pass ending the loop. */
  function Sequence(xs: seq<Json>, f: Json -> Run): (r: Run)
    ensures xs == [] ==> r == Run([], false)
    ensures !r.raised ==> forall i :: 0 <= i < |xs| ==> !f(xs[i]).raised
    decreases |xs|
  {
    if xs == [] then Run([], false)
    else Sequence(xs[..|xs| - 1], f).Then(f(xs[|xs| - 1]))
  }

  /** `for x in v: f(x)`, where `v` may not be iterable at all. */
  function ForEach(v: Json, f: Json -> Run): (r: Run)
    ensures Iterate(v).None? ==> r == Raise
    ensures Iterate(v).Some? && !Truthy(v) ==> r == Run([], false)
  {
    match Iterate(v)
    case None => Raise
    case Some(xs) => Sequence(xs, f)
  }

  /** `value.get("messages") or []` (app.py:98). */
  function MessagesOf(value: seq<(string, Json)>): (m: Json)
    ensures Truthy(GetOr(value, "messages", Null)) ==> m == GetOr(value, "messages", Null)
    ensures !Truthy(GetOr(value, "messages", Null)) ==> m == Arr([])
  {
    var m := GetOr(value, "messages", Null);
    if Truthy(m) then m else Arr([])
  }

  function MessageRun(msg: Json): Run {
    StepRun(MessageStep(msg))
  }

  /** One pass of the middle loop (app.py:96-99): `change.get("value", {})`
      must be a dictionary, and so must `change` itself. */
  function ChangeRun(change: Json): (r: Run)
    ensures !change.Obj? ==> r == Raise
    ensures change.Obj? && !HasKey(change.fields, "value") ==> r == Run([], false)
  {
    match change
    case Obj(cf) =>
      (match GetOr(cf, "value", Obj([]))
       case Obj(vf) => ForEach(MessagesOf(vf), MessageRun)
       case _ => Raise)
    case _ => Raise
  }

  /** One pass of the outer loop (app.py:95-96). */
  function EntryRun(entry: Json): (r: Run)
    ensures !entry.Obj? ==> r == Raise
    ensures entry.Obj? && !HasKey(entry.fields, "changes") ==> r == Run([], false)
  {
    match entry
    case Obj(ef) => ForEach(GetOr(ef, "changes", Arr([])), ChangeRun)
    case _ => Raise
  }

  /** `request.get_json(silent=True) or {}` (app.py:92): no body or an
      undecodable one reads as `None`, and every false value becomes `{}`. */
  function RequestData(body: Option<Json>): (d: Json)
    ensures d == Obj([]) || (body == Some(d) && Truthy(d))
    ensures body.Some? && Truthy(body.value) ==> d == body.value
  {
    if body.Some? && Truthy(body.value) then body.value else Obj([])
  }

  /** Everything `webhook()` does for a request body. */
  function Webhook(body: Option<Json>): (r: Run)
    ensures !RequestData(body).Obj? ==> r == Raise
    ensures RequestData(body).Obj? && !HasKey(RequestData(body).fields, "entry") ==> r == Run([], false)
  {
    match RequestData(body)
    case Obj(df) => ForEach(GetOr(df, "entry", Arr([])), EntryRun)
    case _ => Raise
  }

  /** `return "OK", 200` unless an exception escaped the view. */
  function Response(r: Run): (reply: Reply)
    ensures reply.Status() == 200 <==> !r.raised
    ensures reply.Status() == 500 <==> r.raised
    ensures !r.raised ==> reply == Reply("OK", 200)
  {
    if r.raised then ServerError else Reply("OK", 200)
  }

  /** The innermost loop (app.py:99-139): start each message's action as it
      is reached, and stop at the first message whose step raises. */
  method HandleMessages(ms: seq<Json>) returns (effects: seq<Action>, raised: bool)
    ensures Run(effects, raised) == Sequence(ms, MessageRun)
  {
    effects := [];
    for k := 0 to |ms|
      invariant Sequence(ms[..k], MessageRun) == Run(effects, false)
    {
      SequenceSnoc(ms, k, MessageRun);
      match MessageStep(ms[k])
      case Emit(a) =>
        effects := effects + [a];
      case Skip =>
      case Crash =>
        StopsAt(ms, k, MessageRun);
        return effects, true;
    }
    assert ms[..|ms|] == ms;
    raised := false;
  }

  /** The middle loop (app.py:96-99): each change must be a dictionary whose
      "value" is a dictionary with an iterable "messages". */
  method HandleChanges(cs: seq<Json>) returns (effects: seq<Action>, raised: bool)
    ensures Run(effects, raised) == Sequence(cs, ChangeRun)
  {
    effects := [];
    for j := 0 to |cs|
      invariant Sequence(cs[..j], ChangeRun) == Run(effects, false)
    {
      SequenceSnoc(cs, j, ChangeRun);
      var change := cs[j];
      if !change.Obj? || !GetOr(change.fields, "value", Obj([])).Obj? {
        StopsAt(cs, j, ChangeRun);
        return effects, true;
      }
      var messages := Iterate(MessagesOf(GetOr(change.fields, "value", Obj([])).fields));
      if messages.None? {
        StopsAt(cs, j, ChangeRun);
        return effects, true;
      }
      var more, stop := HandleMessages(messages.value);
      effects := effects + more;
      if stop {
        StopsAt(cs, j, ChangeRun);
        return effects, true;
      }
    }
    assert cs[..|cs|] == cs;
    raised := false;
  }

  /** The outer loop (app.py:95-96): each entry must be a dictionary with an
      iterable "changes". */
  method HandleEntries(es: seq<Json>) returns (effects: seq<Action>, raised: bool)
    ensures Run(effects, raised) == Sequence(es, EntryRun)
  {
    effects := [];
    for i := 0 to |es|
      invariant Sequence(es[..i], EntryRun) == Run(effects, false)
    {
      SequenceSnoc(es, i, EntryRun);
      var entry := es[i];
      if !entry.Obj? {
        StopsAt(es, i, EntryRun);
        return effects, true;
      }
      var changes := Iterate(GetOr(entry.fields, "changes", Arr([])));
      if changes.None? {
        StopsAt(es, i, EntryRun);
        return effects, true;
      }
      var more, stop := HandleChanges(changes.value);
      effects := effects + more;
      if stop {
        StopsAt(es, i, EntryRun);
        return effects, true;
      }
    }
    assert es[..|es|] == es;
    raised := false;
  }

  /** The handler as the source writes it: the three nested loops start each
      message's action as they reach it, and the view answers 500 as soon as
      a lookup or an iteration raises, "OK", 200 otherwise. */
  method HandleWebhook(body: Option<Json>) returns (effects: seq<Action>, reply: Reply)
    ensures effects == Webhook(body).effects && reply == Response(Webhook(body))
    ensures effects <= FlatMap(AllMessages(body), MessageActions)
    ensures reply.Status() == 200 ==> effects == FlatMap(AllMessages(body), MessageActions)
    ensures reply == Reply("OK", 200) <==> Accepted(body)
    ensures WellFormed(body) ==> reply == Reply("OK", 200)
  {
    WebhookFollowsPayloadOrder(body);
    AnsweredOK(body);
    var data := RequestData(body);
    if !data.Obj? {
      return [], ServerError;
    }
    var entries := Iterate(GetOr(data.fields, "entry", Arr([])));
    if entries.None? {
      return [], ServerError;
    }
    var raised;
    effects, raised := HandleEntries(entries.value);
    reply := if raised then ServerError else Reply("OK", 200);
  }

  /** The loop over the first `k + 1` items is the loop over the first `k`
      followed by item `k`. */
  lemma SequenceSnoc(xs: seq<Json>, k: nat, f: Json -> Run)
    requires k < |xs|
    ensures Sequence(xs[..k + 1], f) == Sequence(xs[..k], f).Then(f(xs[k]))
  {
    assert xs[..k + 1][..k] == xs[..k];
  }

  /** Once a pass has raised, later items are never visited. */
  lemma {:induction false} SequenceStops(xs: seq<Json>, k: nat, f: Json -> Run)
    requires k <= |xs| && Sequence(xs[..k], f).raised
    ensures Sequence(xs, f) == Sequence(xs[..k], f)
    decreases |xs|
  {
    if k == |xs| {
      assert xs[..k] == xs;
    } else {
      var init := xs[..|xs| - 1];
      assert init[..k] == xs[..k];
      SequenceStops(init, k, f);
    }
  }

  /** A loop whose pass `k` raises ends with the actions of passes `0..k`. */
  lemma StopsAt(xs: seq<Json>, k: nat, f: Json -> Run)
    requires k < |xs| && !Sequence(xs[..k], f).raised && f(xs[k]).raised
    ensures Sequence(xs, f) == Run(Sequence(xs[..k], f).effects + f(xs[k]).effects, true)
  {
    SequenceSnoc(xs, k, f);
    SequenceStops(xs, k + 1, f);
  }

  // ---------------------------------------------------------------------------
  // Payload order and the tolerant reading of the payload

  /** `f` applied to each item, the results concatenated in order. */
  function FlatMap<T>(xs: seq<Json>, f: Json -> seq<T>): seq<T>
    decreases |xs|
  {
    if xs == [] then [] else FlatMap(xs[..|xs| - 1], f) + f(xs[|xs| - 1])
  }

  /** A value used as a dictionary, or `{}` when it is not one. */
  function FieldsOf(v: Json): seq<(string, Json)> {
    if v.Obj? then v.fields else []
  }

  /** A value used as a list, or `[]` when it is not one. */
  function ItemsOf(v: Json): seq<Json> {
    if v.Arr? then v.items else []
  }

  function Entries(body: Option<Json>): seq<Json> {
    ItemsOf(GetOr(FieldsOf(RequestData(body)), "entry", Arr([])))
  }

  function ChangesOf(entry: Json): seq<Json> {
    ItemsOf(GetOr(FieldsOf(entry), "changes", Arr([])))
  }

  function MessagesIn(change: Json): seq<Json> {
    ItemsOf(MessagesOf(FieldsOf(GetOr(FieldsOf(change), "value", Obj([])))))
  }

  function EntryMessages(entry: Json): seq<Json> {
    FlatMap(ChangesOf(entry), MessagesIn)
  }

  /** Every message of the payload in payload order: entries, then the changes
      of an entry, then the messages of a change. */
  function AllMessages(body: Option<Json>): seq<Json> {
    FlatMap(Entries(body), EntryMessages)
  }

  /** The action a message starts, if its own step does not raise. */
  function MessageActions(msg: Json): seq<Action> {
    StepActions(MessageStep(msg))
  }

  /** The per-message decision with every malformed part read the way the code
      reads a missing one: a non-dictionary as `{}`, a non-string body as "". */
  function IntendedMessage(msg: Json): (r: seq<Action>)
    ensures |r| <= 1
  {
    var fs := FieldsOf(msg);
    var from := GetOr(fs, "from", Null);
    if !Truthy(from) then []
    else if HasKey(fs, "text") then
      var body := GetOr(FieldsOf(GetOr(fs, "text", Null)), "body", Str(""));
      [TextCommand(from, PyString.Normalize(if body.Str? then body.s else ""))]
    else if HasKey(fs, "interactive") then
      var interactive := FieldsOf(GetOr(fs, "interactive", Null));
      if HasKey(interactive, "button_reply") then
        StepActions(ButtonCommand(from, GetOr(FieldsOf(GetOr(interactive, "button_reply", Null)), "id", Null)))
      else []
    else []
  }

  /** The handler as its traversal is evidently meant to behave: every message
      in payload order, nothing ever raising, so the reply is always "OK", 200. */
  function IntendedWebhook(body: Option<Json>): seq<Action> {
    FlatMap(AllMessages(body), IntendedMessage)
  }

  lemma {:induction false} FlatMapAppend<T>(a: seq<Json>, b: seq<Json>, g: Json -> seq<T>)
    ensures FlatMap(a + b, g) == FlatMap(a, g) + FlatMap(b, g)
    decreases |b|
  {
    if b == [] {
      assert a + b == a;
    } else {
      var init := b[..|b| - 1];
      assert (a + b)[..|a + b| - 1] == a + init;
      FlatMapAppend(a, init, g);
    }
  }

  lemma FlatMapOne<T>(x: Json, g: Json -> seq<T>)
    ensures FlatMap([x], g) == g(x)
  {
    assert [x][..0] == [];
  }

  /** At most one action per item gives at most as many actions as items. */
  lemma {:induction false} FlatMapAtMostOne<T>(xs: seq<Json>, g: Json -> seq<T>)
    requires forall x :: |g(x)| <= 1
    ensures |FlatMap(xs, g)| <= |xs|
    decreases |xs|
  {
    if xs != [] {
      FlatMapAtMostOne(xs[..|xs| - 1], g);
    }
  }

  /** A loop whose every pass could only raise, with no action, starts nothing. */
  lemma {:induction false} SequenceOnlyRaises(xs: seq<Json>, f: Json -> Run)
    requires forall i :: 0 <= i < |xs| ==> f(xs[i]) == Raise
    ensures Sequence(xs, f).effects == []
    ensures xs != [] ==> Sequence(xs, f).raised
    decreases |xs|
  {
    if xs != [] {
      SequenceOnlyRaises(xs[..|xs| - 1], f);
    }
  }

  /** `r` started a prefix of `expected`, and all of it unless it raised. */
  predicate Agrees(r: Run, expected: seq<Action>) {
    |r.effects| <= |expected| && expected[..|r.effects|] == r.effects &&
    (!r.raised ==> r.effects == expected)
  }

  /** Agreement survives running one part after another. */
  lemma AgreesThen(a: Run, x: seq<Action>, b: Run, y: seq<Action>)
    requires Agrees(a, x) && Agrees(b, y)
    ensures Agrees(a.Then(b), x + y)
  {
    if a.raised {
      assert (x + y)[..|a.effects|] == x[..|a.effects|];
    } else {
      assert (x + y)[..|a.effects + b.effects|] == x + y[..|b.effects|];
    }
  }

  /** Agreement of a loop, from agreement of all but its last pass and of
      its last pass. */
  lemma SequenceAgrees(xs: seq<Json>, f: Json -> Run, x: seq<Action>, y: seq<Action>)
    requires xs != []
    requires Agrees(Sequence(xs[..|xs| - 1], f), x) && Agrees(f(xs[|xs| - 1]), y)
    ensures Agrees(Sequence(xs, f), x + y)
  {
    AgreesThen(Sequence(xs[..|xs| - 1], f), x, f(xs[|xs| - 1]), y);
  }

  /** The two per-message references the handler is compared with: the
      source's own classification (a message that raises starts nothing) and
      the tolerant reading. */
  datatype Reference = Classified | Tolerant

  function Expected(ref: Reference, ms: seq<Json>): seq<Action> {
    match ref
    case Classified => FlatMap(ms, MessageActions)
    case Tolerant => FlatMap(ms, IntendedMessage)
  }

  /** The reference's actions for one message. */
  function ExpectedOne(ref: Reference, m: Json): seq<Action> {
    match ref
    case Classified => MessageActions(m)
    case Tolerant => IntendedMessage(m)
  }

  lemma ExpectedAppend(ref: Reference, a: seq<Json>, b: seq<Json>)
    ensures Expected(ref, a + b) == Expected(ref, a) + Expected(ref, b)
  {
    FlatMapAppend(a, b, MessageActions);
    FlatMapAppend(a, b, IntendedMessage);
  }

  lemma ExpectedSnoc(ref: Reference, ms: seq<Json>)
    requires ms != []
    ensures Expected(ref, ms) == Expected(ref, ms[..|ms| - 1]) + ExpectedOne(ref, ms[|ms| - 1])
  {
  }

  /** On a message that does not raise, the source's step is what both
      references say; on one that raises it has started nothing. */
  lemma MessageAgrees(ref: Reference, m: Json)
    ensures Agrees(MessageRun(m), ExpectedOne(ref, m))
  {
    var s := MessageStep(m);
    StepAgrees(s);
    if ref == Tolerant {
      TolerantWhenNoRaise(m);
    }
  }

  lemma StepAgrees(s: Step)
    ensures Agrees(StepRun(s), StepActions(s))
    ensures s == Crash ==> Agrees(StepRun(s), [])
  {
  }

  /** On a message whose step does not raise, the tolerant reading decides
      exactly what the source decides. */
  lemma TolerantWhenNoRaise(m: Json)
    ensures MessageStep(m) != Crash ==> MessageActions(m) == IntendedMessage(m)
  {
    if m.Obj? && Truthy(GetOr(m.fields, "from", Null)) && !HasKey(m.fields, "text")
       && HasKey(m.fields, "interactive") {
      var from := GetOr(m.fields, "from", Null);
      var interactive := GetOr(m.fields, "interactive", Null);
      if MessageStep(m) != Crash && !interactive.Obj? {
        assert ButtonStep(from, interactive) == Skip;
      }
    }
  }

  lemma {:induction false} MessagesAgree(ref: Reference, ms: seq<Json>)
    ensures Agrees(Sequence(ms, MessageRun), Expected(ref, ms))
    decreases |ms|
  {
    if ms != [] {
      var init, last := ms[..|ms| - 1], ms[|ms| - 1];
      MessagesAgree(ref, init);
      MessageAgrees(ref, last);
      ExpectedSnoc(ref, ms);
      SequenceAgrees(ms, MessageRun, Expected(ref, init), ExpectedOne(ref, last));
    }
  }

  /** A loop over a value that is not a list either cannot start or visits
      only strings, and every loop body here raises on a string first. */
  lemma ForEachNonList(v: Json, f: Json -> Run)
    requires !v.Arr?
    requires forall x: Json :: x.Str? ==> f(x) == Raise
    ensures Agrees(ForEach(v, f), [])
  {
    if Iterate(v).Some? {
      SequenceOnlyRaises(Iterate(v).value, f);
    }
  }

  lemma ChangeAgrees(ref: Reference, c: Json)
    ensures Agrees(ChangeRun(c), Expected(ref, MessagesIn(c)))
  {
    if c.Obj? && GetOr(c.fields, "value", Obj([])).Obj? {
      var messages := MessagesOf(GetOr(c.fields, "value", Obj([])).fields);
      assert ChangeRun(c) == ForEach(messages, MessageRun);
      if messages.Arr? {
        MessagesAgree(ref, messages.items);
      } else {
        ForEachNonList(messages, MessageRun);
      }
    }
  }

  lemma {:induction false} ChangesAgree(ref: Reference, cs: seq<Json>)
    ensures Agrees(Sequence(cs, ChangeRun), Expected(ref, FlatMap(cs, MessagesIn)))
    decreases |cs|
  {
    if cs != [] {
      var init, last := cs[..|cs| - 1], cs[|cs| - 1];
      ChangesAgree(ref, init);
      ChangeAgrees(ref, last);
      ExpectedAppend(ref, FlatMap(init, MessagesIn), MessagesIn(last));
      SequenceAgrees(cs, ChangeRun, Expected(ref, FlatMap(init, MessagesIn)), Expected(ref, MessagesIn(last)));
    }
  }

  lemma EntryAgrees(ref: Reference, e: Json)
    ensures Agrees(EntryRun(e), Expected(ref, EntryMessages(e)))
  {
    if e.Obj? {
      var changes := GetOr(e.fields, "changes", Arr([]));
      if changes.Arr? {
        ChangesAgree(ref, changes.items);
      } else {
        ForEachNonList(changes, ChangeRun);
      }
    }
  }

  lemma {:induction false} EntriesAgree(ref: Reference, es: seq<Json>)
    ensures Agrees(Sequence(es, EntryRun), Expected(ref, FlatMap(es, EntryMessages)))
    decreases |es|
  {
    if es != [] {
      var init, last := es[..|es| - 1], es[|es| - 1];
      EntriesAgree(ref, init);
      EntryAgrees(ref, last);
      ExpectedAppend(ref, FlatMap(init, EntryMessages), EntryMessages(last));
      SequenceAgrees(es, EntryRun, Expected(ref, FlatMap(init, EntryMessages)), Expected(ref, EntryMessages(last)));
    }
  }

  lemma WebhookAgrees(ref: Reference, body: Option<Json>)
    ensures Agrees(Webhook(body), Expected(ref, AllMessages(body)))
  {
    var data := RequestData(body);
    if data.Obj? {
      var entries := GetOr(data.fields, "entry", Arr([]));
      if entries.Arr? {
        EntriesAgree(ref, entries.items);
      } else {
        ForEachNonList(entries, EntryRun);
      }
    }
  }

  /** The handler starts the actions of the messages in payload order, each
      message's action decided on its own; when it answers "OK", 200 it has
      done so for every message, and when it raises it has done so for the
      messages before the one where it stopped. */
  lemma WebhookFollowsPayloadOrder(body: Option<Json>)
    ensures Webhook(body).effects <= FlatMap(AllMessages(body), MessageActions)
    ensures !Webhook(body).raised ==> Webhook(body).effects == FlatMap(AllMessages(body), MessageActions)
    ensures |Webhook(body).effects| <= |AllMessages(body)|
  {
    WebhookAgrees(Classified, body);
    FlatMapAtMostOne(AllMessages(body), MessageActions);
  }

  /** What the source does is always a prefix of what the tolerant handler
      does, and all of it whenever the source does not raise. */
  lemma WebhookAgreesWithIntended(body: Option<Json>)
    ensures Webhook(body).effects <= IntendedWebhook(body)
    ensures !Webhook(body).raised ==> Webhook(body).effects == IntendedWebhook(body)
    ensures |IntendedWebhook(body)| <= |AllMessages(body)|
  {
    WebhookAgrees(Tolerant, body);
    FlatMapAtMostOne(AllMessages(body), IntendedMessage);
  }

  /** No body, an undecodable one, a false one such as `{}`, or a dictionary
      without "entry": nothing is started and the reply is "OK", 200. */
  lemma NothingToDo(body: Option<Json>)
    requires body.None? || !Truthy(body.value) || (body.value.Obj? && !HasKey(body.value.fields, "entry"))
    ensures Webhook(body) == Run([], false)
    ensures Response(Webhook(body)) == Reply("OK", 200)
  {
  }

  /** Absent parts default to empty ones: an entry without "changes", a change
      without "value", and a value whose "messages" is absent or false
      (null, `[]`, `{}`, "") start nothing and raise nothing. */
  lemma AbsentPartsAreEmpty(entry: seq<(string, Json)>, change: seq<(string, Json)>, value: seq<(string, Json)>)
    ensures !HasKey(entry, "changes") ==> EntryRun(Obj(entry)) == Run([], false)
    ensures !HasKey(change, "value") ==> ChangeRun(Obj(change)) == Run([], false)
    ensures !Truthy(GetOr(value, "messages", Null)) ==> ChangeRun(Obj([("value", Obj(value))])) == Run([], false)
  {
    assert GetOr([("value", Obj(value))], "value", Obj([])) == Obj(value);
  }

  /** A present but false "entry" or "changes" that can be iterated (`[]`,
      `{}`, "") is iterated without raising and starts nothing. */
  lemma FalseIterablesAreEmpty(v: Json)
    requires v.Arr? || v.Str? || v.Obj?
    requires !Truthy(v)
    ensures Webhook(Some(Obj([("entry", v)]))) == Run([], false)
    ensures EntryRun(Obj([("changes", v)])) == Run([], false)
  {
    assert GetOr([("entry", v)], "entry", Arr([])) == v;
    assert GetOr([("changes", v)], "changes", Arr([])) == v;
  }

  // ---------------------------------------------------------------------------
  // Which payloads are answered "OK", 200

  /** A message whose own step does not raise. */
  predicate MessageOk(msg: Json) {
    MessageStep(msg) != Crash
  }

  predicate MessagesOk(ms: seq<Json>) {
    forall i :: 0 <= i < |ms| ==> MessageOk(ms[i])
  }

  /** A change the middle loop gets through: a dictionary whose "value"
      (default `{}`) is a dictionary whose `messages or []` can be iterated,
      and none of whose messages raises. */
  predicate ChangeOk(change: Json) {
    change.Obj? &&
    var value := GetOr(change.fields, "value", Obj([]));
    value.Obj? && Iterate(MessagesOf(value.fields)).Some? && MessagesOk(Iterate(MessagesOf(value.fields)).value)
  }

  predicate ChangesOk(cs: seq<Json>) {
    forall i :: 0 <= i < |cs| ==> ChangeOk(cs[i])
  }

  /** An entry the outer loop gets through: a dictionary whose "changes"
      (default `[]`) can be iterated, and none of whose changes raises. */
  predicate EntryOk(entry: Json) {
    entry.Obj? &&
    var changes := GetOr(entry.fields, "changes", Arr([]));
    Iterate(changes).Some? && ChangesOk(Iterate(changes).value)
  }

  predicate EntriesOk(es: seq<Json>) {
    forall i :: 0 <= i < |es| ==> EntryOk(es[i])
  }

  /** The request bodies the view gets through: the request data is a
      dictionary whose "entry" (default `[]`) can be iterated, and none of
      whose entries raises. */
  predicate Accepted(body: Option<Json>) {
    RequestData(body).Obj? &&
    var entries := GetOr(RequestData(body).fields, "entry", Arr([]));
    Iterate(entries).Some? && EntriesOk(Iterate(entries).value)
  }

  /** A change of the shape the webhook payload documents: a dictionary whose
      "value" is a dictionary whose messages form a list of messages that do
      not raise. */
  predicate WellFormedChange(change: Json) {
    change.Obj? &&
    var value := GetOr(change.fields, "value", Obj([]));
    value.Obj? && MessagesOf(value.fields).Arr? && MessagesOk(MessagesOf(value.fields).items)
  }

  predicate WellFormedEntry(entry: Json) {
    entry.Obj? &&
    var changes := GetOr(entry.fields, "changes", Arr([]));
    changes.Arr? && forall j :: 0 <= j < |changes.items| ==> WellFormedChange(changes.items[j])
  }

  /** A body of the documented shape: a dictionary whose "entry", each entry's
      "changes" and each value's messages are lists (or absent), whose
      entries, changes and values are dictionaries, and whose messages do
      not raise. */
  predicate WellFormed(body: Option<Json>) {
    RequestData(body).Obj? &&
    var entries := GetOr(RequestData(body).fields, "entry", Arr([]));
    entries.Arr? && forall i :: 0 <= i < |entries.items| ==> WellFormedEntry(entries.items[i])
  }

  /** A loop raises exactly when one of its passes raises. */
  lemma {:induction false} SequenceRaises(xs: seq<Json>, f: Json -> Run)
    ensures Sequence(xs, f).raised <==> exists i :: 0 <= i < |xs| && f(xs[i]).raised
    decreases |xs|
  {
    if xs != [] {
      var init := xs[..|xs| - 1];
      SequenceRaises(init, f);
      if Sequence(init, f).raised {
        var i :| 0 <= i < |init| && f(init[i]).raised;
        assert xs[i] == init[i];
      }
    }
  }

  lemma MessagesRaise(ms: seq<Json>)
    ensures Sequence(ms, MessageRun).raised <==> !MessagesOk(ms)
  {
    SequenceRaises(ms, MessageRun);
    forall i | 0 <= i < |ms|
      ensures MessageRun(ms[i]).raised <==> !MessageOk(ms[i])
    {
    }
  }

  lemma ChangeRaises(change: Json)
    ensures ChangeRun(change).raised <==> !ChangeOk(change)
  {
    if change.Obj? {
      var value := GetOr(change.fields, "value", Obj([]));
      if value.Obj? && Iterate(MessagesOf(value.fields)).Some? {
        MessagesRaise(Iterate(MessagesOf(value.fields)).value);
      }
    }
  }

  lemma ChangesRaise(cs: seq<Json>)
    ensures Sequence(cs, ChangeRun).raised <==> !ChangesOk(cs)
  {
    SequenceRaises(cs, ChangeRun);
    forall i | 0 <= i < |cs|
      ensures ChangeRun(cs[i]).raised <==> !ChangeOk(cs[i])
    {
      ChangeRaises(cs[i]);
    }
  }

  lemma EntryRaises(entry: Json)
    ensures EntryRun(entry).raised <==> !EntryOk(entry)
  {
    if entry.Obj? {
      var changes := GetOr(entry.fields, "changes", Arr([]));
      if Iterate(changes).Some? {
        ChangesRaise(Iterate(changes).value);
      }
    }
  }

  lemma EntriesRaise(es: seq<Json>)
    ensures Sequence(es, EntryRun).raised <==> !EntriesOk(es)
  {
    SequenceRaises(es, EntryRun);
    forall i | 0 <= i < |es|
      ensures EntryRun(es[i]).raised <==> !EntryOk(es[i])
    {
      EntryRaises(es[i]);
    }
  }

  /** The view raises, and Flask answers 500, exactly for the bodies it does
      not accept. */
  lemma WebhookRaises(body: Option<Json>)
    ensures Webhook(body).raised <==> !Accepted(body)
  {
    var data := RequestData(body);
    if data.Obj? {
      var entries := GetOr(data.fields, "entry", Arr([]));
      if Iterate(entries).Some? {
        EntriesRaise(Iterate(entries).value);
      }
    }
  }

  lemma WellFormedEntryIsOk(entry: Json)
    requires WellFormedEntry(entry)
    ensures EntryOk(entry)
  {
    var changes := GetOr(entry.fields, "changes", Arr([])).items;
    forall j | 0 <= j < |changes|
      ensures ChangeOk(changes[j])
    {
      assert WellFormedChange(changes[j]);
    }
  }

  /** Every body of the documented shape is accepted. */
  lemma WellFormedIsAccepted(body: Option<Json>)
    requires WellFormed(body)
    ensures Accepted(body)
  {
    var entries := GetOr(RequestData(body).fields, "entry", Arr([])).items;
    forall i | 0 <= i < |entries|
      ensures EntryOk(entries[i])
    {
      WellFormedEntryIsOk(entries[i]);
    }
  }

  /** The reply is "OK", 200 exactly for the accepted bodies; a body of the
      documented shape is always answered "OK", 200 after the action of
      every one of its messages has started, in payload order. */
  lemma AnsweredOK(body: Option<Json>)
    ensures Response(Webhook(body)) == Reply("OK", 200) <==> Accepted(body)
    ensures WellFormed(body) ==> Response(Webhook(body)) == Reply("OK", 200)
    ensures WellFormed(body) ==> Webhook(body).effects == FlatMap(AllMessages(body), MessageActions)
  {
    WebhookRaises(body);
    WebhookFollowsPayloadOrder(body);
    if WellFormed(body) {
      WellFormedIsAccepted(body);
    }
  }

  // ---------------------------------------------------------------------------
  // Concrete payloads

  /** A text message "ping" from "111", as WhatsApp nests it. */
  const PingMessage: Json := Obj([("from", Str("111")), ("text", Obj([("body", Str("ping"))]))])
  const PingChange: Json := Obj([("value", Obj([("messages", Arr([PingMessage]))]))])
  const PingEntry: Json := Obj([("changes", Arr([PingChange]))])
  const NullChangesEntry: Json := Obj([("changes", Null)])

  /** `"entry": null` is not the same as a missing "entry": the lookup returns
      `None`, iterating it raises, and the view answers 500 where the tolerant
      handler answers "OK", 200 with nothing to do. */
  lemma NullEntryIsServerError()
    ensures Response(Webhook(Some(Obj([("entry", Null)])))) == ServerError
    ensures IntendedWebhook(Some(Obj([("entry", Null)]))) == []
  {
    var body := Some(Obj([("entry", Null)]));
    assert GetOr(body.value.fields, "entry", Arr([])) == Null;
    assert Entries(body) == [];
  }

  lemma NormalizePing()
    ensures PyString.Normalize("ping") == "ping"
  {
    PyString.StripIsCore("ping", 0, "ping");
    assert "ping"[1..] == "ing" && "ing"[1..] == "ng" && "ng"[1..] == "g" && "g"[1..] == [];
  }

  lemma PingBodyIsRead()
    ensures TextStep(Str("111"), Obj([("body", Str("ping"))]))
            == Emit(TextCommand(Str("111"), PyString.Normalize("ping")))
  {
    assert GetOr([("body", Str("ping"))], "body", Str("")) == Str("ping");
  }

  lemma PingIsCommand()
    ensures TextCommand(Str("111"), "ping") == Ping(Str("111"))
  {
  }

  lemma PingTextStarts()
    ensures TextStep(Str("111"), Obj([("body", Str("ping"))])) == Emit(Ping(Str("111")))
  {
    PingBodyIsRead();
    NormalizePing();
    PingIsCommand();
  }

  /** A message with a true sender and a "text" field takes the text path. */
  lemma TextMessageStep(fs: seq<(string, Json)>)
    requires Truthy(GetOr(fs, "from", Null)) && HasKey(fs, "text")
    ensures MessageStep(Obj(fs)) == TextStep(GetOr(fs, "from", Null), GetOr(fs, "text", Null))
  {
  }

  lemma PingMessageStarts()
    ensures MessageRun(PingMessage) == Run([Ping(Str("111"))], false)
  {
    var fs := PingMessage.fields;
    assert fs[1].0 == "text";
    assert GetOr(fs, "from", Null) == Str("111");
    assert GetOr(fs, "text", Null) == Obj([("body", Str("ping"))]);
    TextMessageStep(fs);
    PingTextStarts();
  }

  lemma SequenceOne(x: Json, f: Json -> Run)
    ensures Sequence([x], f) == f(x)
  {
    assert [x][..0] == [];
  }

  lemma PingChangeStarts()
    ensures ChangeRun(PingChange) == Run([Ping(Str("111"))], false)
  {
    assert GetOr(PingChange.fields, "value", Obj([])) == Obj([("messages", Arr([PingMessage]))]);
    assert MessagesOf([("messages", Arr([PingMessage]))]) == Arr([PingMessage]);
    SequenceOne(PingMessage, MessageRun);
    PingMessageStarts();
  }

  lemma PingEntryStarts()
    ensures EntryRun(PingEntry) == Run([Ping(Str("111"))], false)
  {
    assert GetOr(PingEntry.fields, "changes", Arr([])) == Arr([PingChange]);
    SequenceOne(PingChange, ChangeRun);
    PingChangeStarts();
  }

  const TwoEntries: Json := Obj([("entry", Arr([PingEntry, NullChangesEntry]))])

  lemma NullChangesRaises()
    ensures EntryRun(NullChangesEntry) == Raise
  {
    assert GetOr(NullChangesEntry.fields, "changes", Arr([])) == Null;
  }

  lemma TwoEntriesLoop()
    ensures Sequence([PingEntry, NullChangesEntry], EntryRun) == Run([Ping(Str("111"))], true)
  {
    var es := [PingEntry, NullChangesEntry];
    assert es[..1] == [PingEntry];
    SequenceOne(PingEntry, EntryRun);
    PingEntryStarts();
    NullChangesRaises();
  }

  lemma TwoEntriesRaiseAfterPing()
    ensures Webhook(Some(TwoEntries)) == Run([Ping(Str("111"))], true)
  {
    assert RequestData(Some(TwoEntries)) == TwoEntries;
    assert GetOr(TwoEntries.fields, "entry", Arr([])) == Arr([PingEntry, NullChangesEntry]);
    assert Webhook(Some(TwoEntries)) == Sequence([PingEntry, NullChangesEntry], EntryRun);
    TwoEntriesLoop();
  }

  lemma TwoEntriesHoldOneMessage()
    ensures AllMessages(Some(TwoEntries)) == [PingMessage]
  {
    var es := [PingEntry, NullChangesEntry];
    assert GetOr(TwoEntries.fields, "entry", Arr([])) == Arr(es);
    assert EntryMessages(NullChangesEntry) == [] by {
      assert GetOr(NullChangesEntry.fields, "changes", Arr([])) == Null;
    }
    assert EntryMessages(PingEntry) == [PingMessage] by {
      assert GetOr(PingEntry.fields, "changes", Arr([])) == Arr([PingChange]);
      FlatMapOne(PingChange, MessagesIn);
      assert GetOr(PingChange.fields, "value", Obj([])) == Obj([("messages", Arr([PingMessage]))]);
      assert MessagesOf([("messages", Arr([PingMessage]))]) == Arr([PingMessage]);
    }
    assert es[..1] == [PingEntry];
    FlatMapOne(PingEntry, EntryMessages);
  }

  /** A second entry whose "changes" is null makes the view answer 500 after
      the first entry's ping has already been started; the tolerant handler
      starts the same ping and answers "OK", 200. */
  lemma LaterNullChangesIsServerError()
    ensures Webhook(Some(TwoEntries)) == Run([Ping(Str("111"))], true)
    ensures IntendedWebhook(Some(TwoEntries)) == [Ping(Str("111"))]
  {
    TwoEntriesRaiseAfterPing();
    TwoEntriesHoldOneMessage();
    WebhookAgreesWithIntended(Some(TwoEntries));
  }
}
