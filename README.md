# WhatsApp speed-test bot: webhook routing in Dafny

The bot is a small Flask application (`app.py`). It serves one route, `/webhook`:

- A `GET` is the subscription handshake (`verify`). The platform sends `hub.mode`, `hub.verify_token` and `hub.challenge`. The bot echoes the challenge with 200 when the mode is `subscribe` and the token is the configured one. Otherwise it answers `"Forbidden", 403`.
- A `POST` carries an event payload (`webhook`). The handler walks `entry` → `changes` → `value` → `messages`. It skips messages without a sender. It reads a text body as `body.strip().lower()` and matches it against a fixed command table, where the leading slash is optional. It maps the three menu button ids to the same commands. Then it answers `"OK", 200`.

This project models those two views. The model stays on the same values as the source:

- The payload is a JSON value (`Json.Json`).
- Python's `dict.get`, `in`, truthiness and `for` iteration are written out (`Json`). A JSON object is a sequence of members, and the last duplicate wins.
- `str.strip()` and `str.lower()` are written out (`PyString`).
- Each side effect the handler would start is a constructor of `Commands.Action`:
  - `SendMenu` for `send_menu`;
  - `StartSpeedtest(quick)` for `run_speedtest_async`;
  - `Ping` for the inline ping measurement and its reply;
  - `SendText` for the fallback reply.

The modules:

- `Wrappers`, `Http` (wrappers.dfy): `Option`, and the reply Flask sends. A view that raises becomes `ServerError` (500).
- `Json` (json.dfy): the payload and Python's operations on it.
- `PyString` (pystring.dfy): `strip` and `lower`, and what they do to a padded command.
- `Handshake` (handshake.dfy): `verify`.
- `Commands` (commands.dfy): the text table, the button table, and the decision for one message.
- `Webhook` (webhook.dfy): the traversal and its proofs.
  - `Webhook.Webhook` is the traversal as a function. It gives the actions started and whether an exception escaped.
  - `HandleWebhook` and its three loop methods are the same traversal written as the source's nested `for` loops. They are proved equal to the function.
  - The function is then compared with two references, both flattened in payload order:
    - the per-message classification `MessageActions`;
    - the tolerant reading `IntendedWebhook`.

Two behaviours of the code differ from what the bot is meant to do; the model follows the code:

- `webhook` does not always answer `"OK", 200`. `data.get("entry", [])` and the lookups below it fall back to the default only when the key is absent. A present `null` or a wrong-typed `entry`, `changes`, `value`, message, `text` or body is iterated or dereferenced, and that raises, so Flask answers 500. There are two exceptions: a false `messages` of any type reads as `[]` (`or []`), and an empty `{}` or `""` as `entry` or `changes` is iterated without raising. `Webhook.Accepted` describes exactly the bodies that get through, and every body of the documented shape (`Webhook.WellFormed`) is one of them. Actions already started for earlier messages stay started. See "## Findings".
- `verify` with the right mode and token but no `hub.challenge` returns `(None, 200)`, which Flask refuses with 500. The handshake then gives neither the challenge nor "Forbidden".

## Model

| member | source | states |
|---|---|---|
| Handshake.DefaultDeploymentHandshake | app.py:10 | with the default verify token, the handshake succeeds for "my_verify_token" and is forbidden for every other token |
| Handshake.Verify | app.py:81-88 | 200 exactly when the mode is "subscribe", the token is the configured one and a challenge is present, and the body is then the challenge. "Forbidden", 403 exactly when the mode or the token is wrong. 500 exactly when both are right and the challenge is absent |
| Commands.TextCommand | app.py:106-122 | the normalised text gives the table's command for the 8 command words (each with and without "/"), and exactly the fallback reply for every other text; the action always goes to the sender |
| Commands.TextStep | app.py:104-105 | a text message acts exactly when `text` is a dictionary whose `body` (default "") is a string; the action is the command of the stripped, lower-cased body; otherwise the lookup raises |
| Commands.ButtonCommand | app.py:128-139 | a button id acts exactly when it is one of the menu's ids "speedtest", "ping", "menu", with that id's command; any other id or none does nothing and never raises |
| Commands.ButtonStep | app.py:124-139 | a dictionary holding a dictionary `button_reply` acts as the button-id table says for its `id`; a dictionary holding a non-dictionary `button_reply` raises; a value that `in` cannot search raises; a list or string holding "button_reply" raises, and one not holding it does nothing; a dictionary without `button_reply` does nothing; a button never sends text and never starts a quick test |
| Commands.KindStep | app.py:104-139 | for a message with a sender, a `text` member takes the text path, otherwise an `interactive` member takes the button path, otherwise nothing happens; any action goes to the sender, and a text reply needs a `text` member |
| Commands.MessageStep | app.py:99-139 | a message that is not a dictionary raises; a false `from` or a message with neither `text` nor `interactive` does nothing; with a true `from`, a `text` member gives the text step of `msg["text"]`, and otherwise an `interactive` member gives the button step of `msg["interactive"]`; every action goes to the `from` value |
| Commands.ButtonReplyCommand | app.py:124-139 | in a message with a sender and no `text`, a `button_reply` dictionary with id "speedtest", "ping" or "menu" starts that command for the sender, and any other id or none does nothing |
| Commands.StepActions | app.py:104-139 | one message yields at most one action |
| Commands.SlashIsOptional | app.py:106-113 | each command word and its "/" form mean the same command, and a button id means what the same text word means |
| Commands.CommandIgnoresCaseAndPadding | app.py:105-113 | any text that lower-cases to a command word, with any whitespace around it, selects that command |
| Commands.CapitalisedCommand | app.py:105-113 | any capitalisation of a command word, padded with any whitespace, selects that command |
| Commands.BlankBodyFallsBack | app.py:105-122 | an absent, empty or all-whitespace body gets exactly the fallback reply |
| Commands.TextWins | app.py:104-124 | when `text` is present, adding an `interactive` member does not change the decision |
| PyString.LStrip | app.py:105 | the result is a suffix of the input; everything removed is whitespace; the result does not start with whitespace |
| PyString.RStrip | app.py:105 | the result is a prefix of the input; everything removed is whitespace; the result does not end with whitespace |
| PyString.IsSpace | app.py:105 | Python's whitespace: never a printable ASCII character, and only code points from tab to U+3000 |
| PyString.Strip | app.py:105 | the result is a piece of the input, does not start or end with whitespace, and is empty exactly when the input is all whitespace |
| PyString.LowerChar | app.py:105 | an ASCII capital becomes its small letter, every other ASCII character is kept, and no result holds an ASCII capital |
| PyString.Lower | app.py:105 | on ASCII input the result has the input's length and each character is the lower case of the input's character at the same place; on any input the result holds no ASCII capital |
| PyString.LowerOfCapitalised | app.py:105 | lower-casing any capitalisation of an ASCII word without capitals gives that word |
| PyString.Normalize | app.py:105 | `strip().lower()` holds no ASCII capital, and is empty exactly when the body is all whitespace |
| PyString.StripIsCore | app.py:105 | `strip()` returns exactly the core that starts and ends with non-whitespace, whatever whitespace surrounds it; an all-blank string strips to "" |
| PyString.NormalizePadded | app.py:105 | padding a word with non-blank ends by whitespace does not change `strip().lower()` |
| Json.GetOr | app.py:94-100 | `get(k, default)` gives the default exactly when the key is absent, and otherwise the value `get(k)` finds |
| Json.Truthy | app.py:92-101 | the false values are exactly `None`, `False`, zero, "", `[]` and `{}` |
| Json.Get | app.py:100 | a lookup finds a value exactly when the key is present, and the value is the last binding of the key |
| Json.Keys | app.py:95-99 | iterating a dictionary yields each key once, and exactly the keys present |
| Json.Iterate | app.py:95-99 | only lists, strings and dictionaries can be iterated; a list yields its items; the others yield strings; the iteration is empty exactly for a false value |
| Json.Contains | app.py:127 | `in` works on dictionaries, lists and strings only; on a dictionary it tests for the key |
| Webhook.RequestData | app.py:92 | `get_json(silent=True) or {}`: the decoded body when it is true, `{}` otherwise |
| Webhook.Sequence | app.py:95-99 | a `for` loop over no items does nothing, and a loop that ends without raising had no pass raise |
| Webhook.ForEach | app.py:95-99 | iterating a value that cannot be iterated raises; iterating a false iterable does nothing |
| Webhook.MessagesOf | app.py:98 | `value.get("messages") or []`: the member when it is true, `[]` otherwise |
| Webhook.ChangeRun | app.py:96-98 | a change that is not a dictionary raises; a change without `value` does nothing |
| Webhook.EntryRun | app.py:95-96 | an entry that is not a dictionary raises; an entry without `changes` does nothing |
| Webhook.Webhook | app.py:90-140 | a body that is true but not a dictionary raises; a dictionary without `entry` does nothing |
| Webhook.Response | app.py:140 | the reply is "OK", 200 exactly when no exception escaped, and 500 exactly when one did |
| Webhook.HandleMessages | app.py:99-139 | the innermost loop starts each message's action in order and stops at the first message that raises, exactly as the traversal function says |
| Webhook.HandleChanges | app.py:96-99 | the middle loop runs each change's messages in order and stops at the first change that raises |
| Webhook.HandleEntries | app.py:94-96 | the outer loop runs each entry's changes in order and stops at the first entry that raises |
| Webhook.HandleWebhook | app.py:90-140 | the actions started are a prefix of the payload's per-message actions in payload order; the reply is "OK", 200 exactly when the body is accepted, and then every message's action was started; a body of the documented shape is always answered "OK", 200 |
| Webhook.WebhookFollowsPayloadOrder | app.py:94-99 | the actions started are a prefix of the per-message actions flattened over entries, changes and messages, and all of them when nothing raises; at most one action per message |
| Webhook.TolerantWhenNoRaise | app.py:100-139 | on a message whose step does not raise, the tolerant reading decides exactly what the source decides |
| Webhook.WebhookAgreesWithIntended | app.py:90-140 | what the source starts is always a prefix of what the tolerant handler starts, and all of it when the source answers 200 |
| Webhook.IntendedMessage | app.py:100-139 | the tolerant per-message decision yields at most one action |
| Webhook.NothingToDo | app.py:92-95 | no body, a false body, or a dictionary without `entry` starts nothing and answers "OK", 200 |
| Webhook.AbsentPartsAreEmpty | app.py:96-98 | an entry without `changes`, a change without `value`, or a `value` whose `messages` is absent or false starts nothing and does not raise |
| Webhook.FalseIterablesAreEmpty | app.py:94-96 | a present but false `entry` or `changes` that can be iterated (`[]`, `{}`, "") starts nothing and does not raise |
| Webhook.SequenceRaises | app.py:95-99 | a `for` loop raises exactly when one of its passes raises |
| Webhook.ChangeRaises | app.py:96-99 | a change raises exactly when it is not a dictionary, its `value` is not a dictionary, its `messages or []` cannot be iterated, or one of its messages raises |
| Webhook.EntryRaises | app.py:95-99 | an entry raises exactly when it is not a dictionary, its `changes` cannot be iterated, or one of its changes raises |
| Webhook.WebhookRaises | app.py:90-140 | the view raises, so Flask answers 500, exactly for the bodies that are not accepted: request data that is not a dictionary, an `entry` that cannot be iterated, or an entry that raises |
| Webhook.WellFormedIsAccepted | app.py:92-104 | every body whose `entry`, `changes` and messages are lists (or absent), whose entries, changes and values are dictionaries, and whose messages do not raise is accepted |
| Webhook.AnsweredOK | app.py:90-140 | the reply is "OK", 200 exactly for the accepted bodies; a body of the documented shape gets "OK", 200 after every one of its messages' actions has started, in payload order |
| Webhook.NullEntryIsServerError | app.py:92-95 | `{"entry": null}` makes the view answer 500, while the tolerant handler has nothing to do |
| Webhook.LaterNullChangesIsServerError | app.py:94-118 | a first entry holding the text "ping" from "111" followed by an entry with `"changes": null` starts the ping and then answers 500; the tolerant handler starts the same ping and answers 200 |

## Left out

- Text holding a lone UTF-16 surrogate (JSON `"\ud800"`), which a Python `str` can hold but a Dafny `char` cannot: bodies, keys and `from` values with such text are not represented. Routing is unaffected, because no such text equals a command word or a button id.
- Outbound HTTP: `send_text` and `send_menu` (app.py:20-54) post fixed payloads through `requests` and log failures. They are the `SendText` and `SendMenu` actions. An exception from `requests.post` itself, such as a connection error, would escape the handler; the model does not include it.
- Speed measurement: the `speedtest` library calls, the float arithmetic and the `:.2f` formatting in `speedtest_worker` (app.py:56-75) and in the inline ping branches (app.py:115-120, 132-137) are foreign calls on floating-point results. Only the request is modelled, as `StartSpeedtest` or `Ping`.
- Threading: `run_speedtest_async` (app.py:77-79) starts a daemon thread. It is the `StartSpeedtest` action, with no model of concurrency.
- Process wiring: Flask routing, `request.args`, `request.get_json` (the body arrives as an already decoded `Option<Json>`; `None` stands for no body or an undecodable one), environment configuration and the startup `RuntimeError` (app.py:8-15), and `app.run` (app.py:142-145). The configured verify token is a parameter of `Handshake.Verify`.
- JSON numbers are reals. NaN, infinities and the int/float distinction are not modelled, and they do not affect routing.
- PyString.LowerChar: models `str.lower()` for ASCII capitals and for the only two non-ASCII code points whose lower case contains ASCII letters (U+0130 and U+212A). Every other code point is kept unchanged, so the model's result differs from Python's for other cased non-ASCII letters. This never changes which command a text selects, because every command word is ASCII.
- Json.Contains: the contract does not characterise `in` on strings (substring) or lists (membership) in both directions; the function's body does.

## Findings

| source | as written | input that shows it | evidently intended | confidence | as-written member | corrected member |
|---|---|---|---|---|---|---|
| app.py:94-98 | `get(key, default)` gives the default only for an absent key. A present `null` or a wrong-typed `entry`, `changes`, `value`, message, `text` or body is iterated or dereferenced and raises. The exceptions are a false `messages` of any type, which reads as `[]`, and an empty `{}` or `""` as `entry` or `changes`, which is iterated without raising. Flask then answers 500 after the actions for earlier messages have started, and the payload's later messages are never looked at | `{"entry": [E, {"changes": null}]}`, where `E` holds the text "ping" from "111": the ping starts, then the view answers 500 | "basic safe traversal" (app.py:93): a malformed part reads as an absent one, every message is processed, and the reply is always "OK", 200 | medium, not executed | Webhook.LaterNullChangesIsServerError | Webhook.WebhookAgreesWithIntended |
