/** What one inbound message asks the bot to do: the text command table, the
    button-reply table, and the per-message decision of the webhook loop
    (app.py:100-139). */
module Commands {
  import opened Wrappers
  import opened Json
  import opened PyString

  /** The reply to any text that is not a command (app.py:122). */
  const FallbackText: string := "Send 'menu' to see options."

  /** The side effects the handler starts for a message. Each stands for a call
      the model does not perform: `send_menu`, `run_speedtest_async` (which runs
      `speedtest_worker` on its own thread), the inline ping measurement with
      its reply, and `send_text`. The recipient is the message's `from` value. */
  datatype Action =
    | SendMenu(to: Json)
    | StartSpeedtest(to: Json, quick: bool)
    | Ping(to: Json)
    | SendText(to: Json, text: string)

  /** The outcome of one pass of the innermost loop body: one action, nothing
      (including the `continue` for a missing sender), or an exception that
      escapes the handler. */
  datatype Step = Emit(action: Action) | Skip | Crash

  /** The three things a command can ask for. */
  datatype Command = Menu | Speedtest(quick: bool) | CheckPing

  function Perform(c: Command, to: Json): Action {
    match c
    case Menu => SendMenu(to)
    case Speedtest(quick) => StartSpeedtest(to, quick)
    case CheckPing => Ping(to)
  }

  /** The text commands, each with and without its leading slash. */
  const TextTable: map<string, Command> := map[
    "menu" := Menu, "/menu" := Menu,
    "speedtest" := Speedtest(false), "/speedtest" := Speedtest(false),
    "quick" := Speedtest(true), "/quick" := Speedtest(true),
    "ping" := CheckPing, "/ping" := CheckPing]

  /** The ids of the three buttons of the menu (app.py:43-45). */
  const ButtonTable: map<string, Command> := map[
    "speedtest" := Speedtest(false), "ping" := CheckPing, "menu" := Menu]

  /** The if/elif chain on the normalised text (app.py:106-122): a command from
      the table, and the fallback reply for every other text. */
  function TextCommand(to: Json, t: string): (a: Action)
    ensures a == if t in TextTable then Perform(TextTable[t], to) else SendText(to, FallbackText)
    ensures a.to == to && (a.SendText? <==> t !in TextTable)
  {
    if t == "menu" || t == "/menu" then SendMenu(to)
    else if t == "speedtest" || t == "/speedtest" then StartSpeedtest(to, false)
    else if t == "quick" || t == "/quick" then StartSpeedtest(to, true)
    else if t == "ping" || t == "/ping" then Ping(to)
    else SendText(to, FallbackText)
  }

  /** The text branch (app.py:104-122): `msg["text"].get("body", "")` must be a
      dictionary lookup giving a string, which is stripped, lower-cased and
      matched; anything else raises before any action. */
  function TextStep(to: Json, text: Json): (r: Step)
    ensures r != Skip
    ensures r.Emit? <==> text.Obj? && GetOr(text.fields, "body", Str("")).Str?
    ensures r.Emit? ==> r.action == TextCommand(to, Normalize(GetOr(text.fields, "body", Str("")).s))
    ensures r.Emit? ==> r.action.to == to
  {
    match text
    case Obj(tf) =>
      (match GetOr(tf, "body", Str(""))
       case Str(body) => Emit(TextCommand(to, Normalize(body)))
       case _ => Crash)
    case _ => Crash
  }

  /** The button-id chain (app.py:129-139): only the menu's three ids act, and
      any other id, or none, does nothing. */
  function ButtonCommand(to: Json, id: Json): (r: Step)
    ensures r != Crash
    ensures r.Emit? <==> id.Str? && id.s in ButtonTable
    ensures r.Emit? ==> r.action == Perform(ButtonTable[id.s], to)
    ensures r.Emit? ==> r.action.to == to && !r.action.SendText?
  {
    if id == Str("speedtest") then Emit(StartSpeedtest(to, false))
    else if id == Str("ping") then Emit(Ping(to))
    else if id == Str("menu") then Emit(SendMenu(to))
    else Skip
  }

  /** The interactive branch (app.py:124-139): `"button_reply" in interactive`
      and then `interactive["button_reply"].get("id")`. */
  function ButtonStep(to: Json, interactive: Json): (r: Step)
    ensures r.Emit? ==> r.action.to == to && !r.action.SendText?
    ensures r.Emit? && r.action.StartSpeedtest? ==> !r.action.quick
    ensures interactive.Obj? && !HasKey(interactive.fields, "button_reply") ==> r == Skip
    ensures r.Emit? ==> interactive.Obj? && HasKey(interactive.fields, "button_reply")
    ensures Contains(interactive, "button_reply").None? ==> r == Crash
    ensures Contains(interactive, "button_reply") == Some(false) ==> r == Skip
    ensures Contains(interactive, "button_reply") == Some(true) && !interactive.Obj? ==> r == Crash
    ensures interactive.Obj? && HasKey(interactive.fields, "button_reply") ==>
              r == (match GetOr(interactive.fields, "button_reply", Null)
                    case Obj(bf) => ButtonCommand(to, GetOr(bf, "id", Null))
                    case _ => Crash)
  {
    match Contains(interactive, "button_reply")
    case None => Crash
    case Some(false) => Skip
    case Some(true) =>
      match interactive
      case Obj(fs) =>
        (match GetOr(fs, "button_reply", Null)
         case Obj(bf) => ButtonCommand(to, GetOr(bf, "id", Null))
         case _ => Crash)
      case _ => Crash
  }

  /** The branch on the kind of a message that has a sender (app.py:104-139). */
  function KindStep(from: Json, fs: seq<(string, Json)>): (r: Step)
    ensures HasKey(fs, "text") ==> r == TextStep(from, GetOr(fs, "text", Null))
    ensures !HasKey(fs, "text") && HasKey(fs, "interactive") ==> r == ButtonStep(from, GetOr(fs, "interactive", Null))
    ensures !HasKey(fs, "text") && !HasKey(fs, "interactive") ==> r == Skip
    ensures r.Emit? ==> r.action.to == from
    ensures r.Emit? && r.action.SendText? ==> HasKey(fs, "text")
  {
    if HasKey(fs, "text") then TextStep(from, GetOr(fs, "text", Null))
    else if HasKey(fs, "interactive") then ButtonStep(from, GetOr(fs, "interactive", Null))
    else Skip
  }

  /** One message of the innermost loop (app.py:100-139). */
  function MessageStep(msg: Json): (r: Step)
    ensures !msg.Obj? ==> r == Crash
    ensures msg.Obj? && !Truthy(GetOr(msg.fields, "from", Null)) ==> r == Skip
    ensures msg.Obj? && !HasKey(msg.fields, "text") && !HasKey(msg.fields, "interactive") ==> r == Skip
    ensures r.Emit? ==> msg.Obj? && r.action.to == GetOr(msg.fields, "from", Null)
    ensures r.Emit? && r.action.SendText? ==> HasKey(msg.fields, "text")
    ensures msg.Obj? && Truthy(GetOr(msg.fields, "from", Null)) && HasKey(msg.fields, "text") ==>
              r == TextStep(GetOr(msg.fields, "from", Null), GetOr(msg.fields, "text", Null))
    ensures msg.Obj? && Truthy(GetOr(msg.fields, "from", Null)) && !HasKey(msg.fields, "text")
              && HasKey(msg.fields, "interactive") ==>
              r == ButtonStep(GetOr(msg.fields, "from", Null), GetOr(msg.fields, "interactive", Null))
  {
    match msg
    case Obj(fs) =>
      var from := GetOr(fs, "from", Null);
      if !Truthy(from) then Skip else KindStep(from, fs)
    case _ => Crash
  }


  /** The actions a message starts when its step does not raise. */
  function StepActions(s: Step): (r: seq<Action>)
    ensures |r| <= 1
  {
    if s.Emit? then [s.action] else []
  }

  /** A leading slash never changes a command, and a button means what the
      text of the same word means. */
  lemma SlashIsOptional(w: string)
    requires w in TextTable && w[0] != '/'
    ensures "/" + w in TextTable && TextTable["/" + w] == TextTable[w]
    ensures w in ButtonTable ==> ButtonTable[w] == TextTable[w]
  {
    if w == "menu" {
      assert "/" + w == "/menu";
    } else if w == "speedtest" {
      assert "/" + w == "/speedtest";
    } else if w == "quick" {
      assert "/" + w == "/quick";
    } else {
      assert w == "ping";
      assert "/" + w == "/ping";
    }
  }

  /** Every command starts and ends with a printable ASCII character, which is
      never blank. */
  lemma CommandEndsNotBlank(c: string)
    requires c in TextTable
    ensures c != [] && !IsSpace(c[0]) && !IsSpace(c[|c| - 1])
  {
    assert '!' <= c[0] <= '~' && '!' <= c[|c| - 1] <= '~';
  }

  /** Text commands ignore letter case and surrounding whitespace: any text
      that lower-cases to a command, padded with any whitespace, is that command. */
  lemma CommandIgnoresCaseAndPadding(to: Json, p: string, v: string, q: string)
    requires AllSpace(p) && AllSpace(q)
    requires Lower(v) in TextTable
    ensures TextCommand(to, Normalize(p + v + q)) == Perform(TextTable[Lower(v)], to)
  {
    assert Lower([]) == [];
    assert v != [];
    LowerEnds(v);
    var c := Lower(v);
    CommandEndsNotBlank(c);
    NormalizePadded(p, v, q);
  }

  /** A missing, empty or all-blank body gets exactly the fallback reply. */
  lemma BlankBodyFallsBack(to: Json, tf: seq<(string, Json)>)
    requires GetOr(tf, "body", Str("")).Str? && AllSpace(GetOr(tf, "body", Str("")).s)
    ensures TextStep(to, Obj(tf)) == Emit(SendText(to, FallbackText))
  {
    assert Normalize(GetOr(tf, "body", Str("")).s) == [];
  }

  /** When a message has a `text` member its `interactive` member is never
      looked at: adding one changes nothing. */
  lemma TextWins(fs: seq<(string, Json)>, v: Json)
    requires HasKey(fs, "text")
    ensures MessageStep(Obj(fs + [("interactive", v)])) == MessageStep(Obj(fs))
  {
    var fs' := fs + [("interactive", v)];
    assert fs'[..|fs'| - 1] == fs;
    var i :| 0 <= i < |fs| && fs[i].0 == "text";
    assert fs'[i].0 == "text";
  }

  /** A button reply in a message with a sender and no text: the menu's three
      ids start their command for the sender, and any other id, or none, does
      nothing. */
  lemma ButtonReplyCommand(fs: seq<(string, Json)>, ifs: seq<(string, Json)>, bf: seq<(string, Json)>)
    requires Truthy(GetOr(fs, "from", Null)) && !HasKey(fs, "text")
    requires HasKey(fs, "interactive") && GetOr(fs, "interactive", Null) == Obj(ifs)
    requires HasKey(ifs, "button_reply") && GetOr(ifs, "button_reply", Null) == Obj(bf)
    ensures MessageStep(Obj(fs)) ==
              (var id := GetOr(bf, "id", Null);
               if id.Str? && id.s in ButtonTable then Emit(Perform(ButtonTable[id.s], GetOr(fs, "from", Null)))
               else Skip)
  {
  }

  /** Every command word is lower-case ASCII. */
  lemma CommandIsLowerAscii(w: string)
    requires w in TextTable
    ensures IsAscii(w) && forall i :: 0 <= i < |w| ==> !('A' <= w[i] <= 'Z')
  {
    assert w in {"menu", "/menu", "speedtest", "/speedtest", "quick", "/quick", "ping", "/ping"};
  }

  /** Any capitalisation of a command word, padded with any whitespace,
      selects that command: "  PiNg\n" is the ping command. */
  lemma CapitalisedCommand(to: Json, p: string, v: string, q: string, w: string)
    requires AllSpace(p) && AllSpace(q)
    requires w in TextTable && SameUpToCase(v, w)
    ensures TextCommand(to, Normalize(p + v + q)) == Perform(TextTable[w], to)
  {
    CommandIsLowerAscii(w);
    LowerOfCapitalised(v, w);
    CommandIgnoresCaseAndPadding(to, p, v, q);
  }
}
