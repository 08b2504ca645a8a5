# Webex space to email bridge — a Dafny model

This project models the decision logic of a small Flask application. The application forwards every new message posted in selected Webex spaces to a list of email addresses. There are two source files:

- `webex.py` wraps five Webex REST calls. Each call is decorated with `refresh_on_expire`: when the call reports an expired access token, the decorator does one refresh-token exchange and retries once with the new token.
- `app.py` holds the Flask handlers:
  - `/` issues an OAuth 2.0 `state` parameter (section 10.12 of RFC 6749);
  - `/oauth` exchanges the authorization code only when the returned state matches (section 4.1 of RFC 6749);
  - `/subscribe` creates one webhook per configured space, then lists this application's webhooks with their room titles;
  - `/webhook` checks the HMAC-SHA1 signature of each event, then mails the message to every recipient of its space.

Modules:

- `Wrappers`: `Option`.
- `PyStrings`: Python's `str.split`/`str.join` on one separator character, `s[:-1]`, and how an f-string formats `None`. Includes the split/join round trip.
- `Settings`: the configuration (`webex_spaces` is a sequence of names with their recipients, in dictionary order). `Config` does not require the names to be distinct; the predicate `DistinctSpaces` states the property a Python dictionary guarantees, and only `App.DictLookup` assumes it. Also the mutable `settings` object that holds the two tokens.
- `Webex`:
  - the Webex service as a `Provider` object. It answers each request as a function of the history of requests sent so far, so expiry, revocation and "already exists" can all be expressed;
  - the process environment (`Environ`);
  - the five response classifiers;
  - the decorator, as the method `Webex.RefreshOnExpire`. It is proved against the pure function `Policy`, which describes one decorated call (its outcome, the requests it sends, and the token it stores).
  - a ghost log of the calls the application makes (the five decorated wrappers and the code exchange), each with the outcome it handed back. The class invariant `Replayed` says that running the log through `Policy` against the provider's answers, from the requests sent before the first call, gives exactly the recorded outcomes and exactly the requests the provider was sent. Every handler keeps it, and states with `Answers` that the calls it logged were answered that way.
- `Mail`: the pure part of `send_email`: timestamp, content choice, subject, and the email built per recipient. The SMTP server is a log of delivery attempts.
- `App`: the handlers, as methods of `Server`. The search and filter loops are proved against recursive specification functions.

Each handler returns the branch it takes. That is the page it renders, `None`, or the exception that escapes it (Flask answers an exception with an error page).

Where the code and its documentation disagree, the model follows the code:

- The decorator ends in `finally: return result`. If `result` was never bound, that line raises `UnboundLocalError`. This happens in three cases: a second expiry, a refresh that yields no token (`os.environ[...] = None` is a `TypeError`), and a 200 body that lacks a field the wrapper reads. In all three the decorated call raises; it does not quietly fall back to the old token.
- The decorator reads the refresh token from the environment once, at import time. `get_tokens` writes `settings.refresh_token`, never the environment. So unless the process was started with a `refresh_token` variable, the refresh request carries the string `"None"`.
- The refreshed token goes into `os.environ['oauth_token']`. The handlers keep passing `settings.oauth_token`, so later calls still use the stale token.
- `state` starts as `''` and is never cleared after use. So before anyone has visited `/`, an empty returned `state` passes the check, and a state value can be used more than once.
- `get_tokens` does not look at the response status. It stores the access token before it reads the refresh token, so a grant without `refresh_token` raises after `settings.oauth_token` has already been replaced.
- If no configured space matches the room title, `webex_spaces[{}]` raises a `TypeError`, and no email goes out.
- `message_details` logs `message['text']`, so a 200 message without a `text` field raises, even though `send_email` could have used its `html` or `markdown`.

## Model

| member | source | states |
|---|---|---|
| PyStrings.PyStr | webex.py:68 | an f-string renders an absent value as `"None"` and a present one as itself |
| PyStrings.Split | app.py:143 | `str.split` on one character: at least one piece, no piece contains the separator, and joining the pieces gives back the input |
| PyStrings.SplitJoin | app.py:143 | splitting the join of separator-free pieces gives back exactly those pieces |
| PyStrings.SplitPieces | app.py:143 | the split has a second piece exactly when the separator occurs |
| PyStrings.SplitAfterPrefix | webex.py:115 | a separator-free prefix followed by the separator is split off as the first piece |
| PyStrings.SplitWithoutSep | app.py:250 | a string without the separator splits into itself alone |
| PyStrings.DropLast | app.py:251 | `s[:-1]` is `s` without its last character, and empty for the empty string |
| Settings.Store.constructor | settings_template.py:9-10 | both tokens start as the empty string |
| Webex.Provider.Send | webex.py:71 | each request is appended to the log and answered from the history sent before it |
| Webex.RefreshReply | webex.py:57-76 | the new access token only on status 200, None on every other status; a 200 without `access_token` raises; never an expiry signal |
| Webex.RoomIndex | webex.py:93-96 | the first room whose title equals the target exactly, or none when no title matches |
| Webex.RoomIdReply | webex.py:79-105 | 401 is the expiry signal; on 200, the id of the first room titled exactly as the target, None iff no title matches; None on any other status |
| Webex.CreatedReply | webex.py:108-141 | on 200, the created webhook; 401 is the expiry signal; 409 and every other status give None without error |
| Webex.WebhooksReply | webex.py:144-160 | the listed webhooks on 200; every other status, 401 included, gives None, so a list call is never an expiry signal |
| Webex.RoomReply | webex.py:163-182 | the room on 200, the expiry signal on 401, None otherwise |
| Webex.MessageReply | webex.py:185-204 | the message on 200 when it has a `text` field (the log line reads it), the expiry signal on 401, None otherwise |
| Webex.WebhookFilter | webex.py:115 | the filter is the literal prefix `roomId=` followed by exactly the room id, and nothing else |
| Webex.GetRoomIdCall | webex.py:82-86 | `get_room_id` sends a room-listing request with the caller's token, and only a 401 is an expiry signal |
| Webex.ConfigureWebhookCall | webex.py:110-126 | `configure_webhook` posts a webhook on resource `messages`, event `created`, filter `roomId=<id>`, the configured target URL and secret, and the application's webhook name; a 409 gives None |
| Webex.ListWebhooksCall | webex.py:146-150 | `list_webhooks` sends a webhook-listing request with the caller's token, and no status is an expiry signal |
| Webex.RoomDetailsCall | webex.py:165-169 | `room_details` requests the room with that id, and only a 401 is an expiry signal |
| Webex.MessageDetailsCall | webex.py:187-191 | `message_details` requests the message with that id, and only a 401 is an expiry signal |
| Webex.Settle | webex.py:52-53 | values and None reach the caller; an expiry signal or a malformed body escapes as an exception |
| Webex.Policy | webex.py:35-54 | one decorated call sends one to three requests, starting with the call itself. Without expiry it returns the first result and does nothing else. On expiry it does exactly one refresh exchange. When that exchange yields a token, the token is stored and the call is retried with it, and the retry's result is final. When it yields none, nothing is stored and the call raises after two requests (a rejected refresh and a malformed one are told apart) |
| Webex.ListWebhooksNeverRefreshes | webex.py:144-160 | a decorated list call sends only the list request, and any non-200 status gives None |
| Webex.ConflictIsSilent | webex.py:134-135 | a 409 on creation gives None after one request, with no refresh and nothing stored |
| Webex.Webex.RefreshRequest | webex.py:64-71 | the refresh grant carries the configured client id and secret and the refresh token captured at decoration, written `None` when it was unset |
| Webex.Webex.constructor | webex.py:35-37 | the refresh token is captured from the environment when the wrappers are decorated; the call log starts empty, so it trivially replays against the provider from the requests already sent |
| Webex.ReplaysOne | webex.py:39-54 | one decorated call, whose outcome and requests are those `Policy` gives from the provider's answers, replays as the one log entry it records |
| Webex.ReplaysAppend | webex.py:39-54 | two call logs replayed one after the other replay as their concatenation |
| Webex.ReplaysSplit | webex.py:39-54 | the calls logged after a replayed prefix replay on their own, from the requests sent when the prefix ended |
| Webex.ReplaysSends | webex.py:39-54 | every logged call sent at least one request, after those sent before it, so a log cannot record a call that sent nothing |
| Webex.ReplaysDetermined | webex.py:39-54 | two logs of the same calls with the same arguments, begun from the same requests, record the same outcomes and end with the same requests: the provider's answers fix every outcome |
| Webex.Webex.ReplayedSince | webex.py:39-54 | while the whole log replays, the calls logged since an earlier replayed state were answered as the provider answers them from the requests sent then |
| Webex.Webex.Exchange | app.py:196 | the undecorated code exchange sends one request, gets the provider's answer to it, and logs it with that answer, keeping the whole log replayed |
| Webex.Webex.RefreshOnExpire | webex.py:39-53 | the decorated call behaves as `Policy` describes: its outcome, its requests appended to the log, and the new token written to the environment's `oauth_token` and nowhere else (the environment's refresh token is untouched) |
| Webex.Webex.GetRoomId | webex.py:79-105 | the decorated `get_room_id`; it logs its invocation with the outcome `Policy` gives from the provider's answers, appends exactly `Policy`'s requests, and keeps the whole log replayed |
| Webex.Webex.ConfigureWebhook | webex.py:108-141 | the decorated `configure_webhook`, registering `roomId=<id>` with the configured target URL, name and secret; it logs its invocation with the outcome `Policy` gives from the provider's answers, appends exactly `Policy`'s requests, and keeps the whole log replayed |
| Webex.Webex.ListWebhooks | webex.py:144-160 | the decorated `list_webhooks`; it logs its invocation with the outcome `Policy` gives from the provider's answers, appends exactly `Policy`'s requests, and keeps the whole log replayed |
| Webex.Webex.RoomDetails | webex.py:163-182 | the decorated `room_details`; it logs its invocation with the outcome `Policy` gives from the provider's answers, appends exactly `Policy`'s requests, and keeps the whole log replayed |
| Webex.Webex.MessageDetails | webex.py:185-204 | the decorated `message_details`; it logs its invocation with the outcome `Policy` gives from the provider's answers, appends exactly `Policy`'s requests, and keeps the whole log replayed |
| Mail.Subject | app.py:274 | the subject is the room name followed by ` - Webex Space Message` |
| Mail.SubjectNamesRoom | app.py:274 | two rooms with the same subject have the same name |
| Mail.FormatTimestamp | app.py:250-251 | a timestamp is produced exactly when `created` contains `T`; without one, the indexing raises |
| Mail.TimestampOfIso | app.py:250-251 | `<date>T<time>` becomes `<date> - <time without its last character>` |
| Mail.Content | app.py:254-260 | html if present, else markdown if present, else text; none only when all three are absent |
| Mail.Compose | app.py:225-274 | an email is built exactly when the timestamp and the content can be formatted. It carries the sender, the recipient, the subject, the room name, the author, the timestamp and the content |
| Mail.Fanout | app.py:102-103 | one email per recipient, in list order, each the one `send_email` builds for that recipient |
| Mail.FanoutAddresses | app.py:102-103 | every email of a fan-out has the room's subject and goes to a listed recipient |
| Mail.Mailer.Deliver | app.py:276-287 | a delivery attempt is recorded whether or not SMTP succeeds, since failures are caught |
| App.AlphabetIsAsciiAlnum | app.py:214 | the alphabet is exactly the 62 ASCII upper-case letters, lower-case letters and digits |
| App.GenerateStateParam | app.py:213-214 | the state has 15 characters, each an ASCII letter or digit |
| App.SpaceIndex | app.py:96-99 | the first configured space whose name equals the room title exactly, or none |
| App.DictLookup | app.py:96-99 | with distinct space names, the first match is the unique space of that name |
| App.FindSpace | app.py:93-99 | the search loop finds exactly the space `SpaceIndex` names |
| App.Found | app.py:128 | `subscribe` goes on to create a webhook exactly for a lookup that returned a non-empty id; None, `''` and an exception all skip it |
| App.FilterRoomId | app.py:143 | element 1 of the filter split on `=` exists exactly when the filter contains `=` |
| App.FilterRoundTrip | webex.py:115 | reading back a registered filter gives the room id up to its first `=`, and gives the room id itself exactly when the id has no `=` |
| App.Ours | app.py:140-142 | only webhooks named `Space Email Webhook` are kept |
| App.OursAppend | app.py:140-144 | the filter keeps the listed order |
| App.OursFromListing | app.py:140-144 | every kept webhook was listed |
| App.OursKeepsAll | app.py:140-144 | no webhook with the application's name is dropped |
| App.Names | app.py:121 | the space names in dictionary order |
| App.Enrich | app.py:143-144 | each kept webhook is paired with the title of its room, in order |
| App.LookupCrash | app.py:143 | the listing loop goes on exactly when the filter has a `=` and the room lookup returned a room; otherwise it raises an index error when the filter has no `=`, the lookup's exception when the lookup raised, and a subscript-of-None error when it found no room |
| App.OursStep | app.py:140-142 | reading one more listed webhook keeps it exactly when it has the application's name |
| App.OursPrefix | app.py:140-144 | the webhooks kept from a prefix of the listing are a prefix of all kept ones, followed by the next kept one |
| App.StopListing | app.py:140-144 | when the next kept webhook's room lookup raises, the loop ends with that exception after the lookups of all earlier kept webhooks |
| App.FinishListing | app.py:140-146 | when the loop got through the whole listing, the page shows every kept webhook with its room title |
| App.Delivery | app.py:93-103 | once room and message are known: an unknown room title raises; otherwise the message is forwarded exactly when the matching space has no recipients or the message can be formatted, and raises otherwise |
| App.Mailing | app.py:102-103 | a forwarded message yields one email per recipient of the matching space, in order, each the one `send_email` builds |
| App.SpaceCalls | app.py:125-132 | one space adds one lookup of its name, and one creation exactly when its room id was found |
| App.SetupTargets | app.py:121-125 | `get_room_id` is asked once per configured space, in dictionary order |
| App.SetupCreations | app.py:127-132 | `configure_webhook` is called once per room id found (not None, not empty), in order, and never otherwise |
| App.SetupStep | app.py:121-132 | one more space adds its room lookup and, only when its room id was found, one webhook creation for that id; the loop then stops with that space's exception, if it raised, or goes on with every space so far succeeded |
| App.ExtendListing | app.py:140-144 | one more kept webhook adds one room lookup to the calls and one row with its room title to the page |
| App.Server.constructor | app.py:42 | the stored state starts as the empty string, and the handlers and the Webex wrappers read the same configuration |
| App.Server.MainPage | app.py:48-54 | the landing page issues a new state parameter and remembers it |
| App.Server.CodeRequest | app.py:192-196 | the code exchange carries the configured client id, secret and redirect URI and the code, written `None` when absent |
| App.Server.GetTokens | app.py:187-206 | the code exchange is one request, logged with the provider's answer to it; the status is not checked. Both tokens are stored when both are present. A missing access token stores nothing; a missing refresh token stores only the access token |
| App.Server.OAuth | app.py:160-173 | on a state mismatch, the landing page is shown with no request and no token change. On a match, the code is exchanged with one request, logged with the provider's answer; the handler redirects to `/subscribe` exactly when the grant holds both tokens, and otherwise raises. The access token is stored whenever the grant has one, the refresh token only when both are present, and each is otherwise unchanged |
| App.Server.SendEmail | app.py:225-287 | exactly one delivery attempt when the message can be formatted; none otherwise (the formatting raises) |
| App.Server.Forward | app.py:102-103 | either all recipients are sent the message, one email each in order, or (the message cannot be formatted) none are |
| App.Server.Deliver | app.py:93-103 | the space search and the recipient loop: the outcome `Delivery` names, exactly the emails `Mailing` lists when forwarded, and no email otherwise |
| App.Server.Webhook | app.py:61-108 | the handler is rejected exactly when the signature does not match, and then makes no lookup, no request and no email. Otherwise it looks the room up; an exception from the lookup escapes and a missing room ends the handler. With a room it looks the message up, with the same two exits. With both it takes the branch `Delivery` names, and forwards exactly the emails `Mailing` lists; no other path sends an email. Every call it logs was answered as the provider answers it (through `Policy`), the whole log stays replayed, and of the environment only the access token can change |
| App.Server.Prepare | app.py:124-132 | one room lookup by name, then one webhook creation exactly when a non-empty id came back; the space fails exactly when one of these two calls raised, with its exception. Every call it logs was answered as the provider answers it (through `Policy`), the whole log stays replayed, and of the environment only the access token can change |
| App.Server.SetUp | app.py:120-132 | the set-up loop handles the spaces in order and makes exactly the calls `SetupOps` lists. It stops at the first space whose lookup or creation raised, with that exception, and otherwise handles every space. Every call it logs was answered as the provider answers it (through `Policy`), the whole log stays replayed, and of the environment only the access token can change |
| App.Server.RoomOf | app.py:143 | a listed filter without `=` raises with no request. Otherwise one room lookup for the id after the `=`: an exception from it escapes, a missing room raises, and a returned room is the result. Every call it logs was answered as the provider answers it (through `Policy`), the whole log stays replayed, and of the environment only the access token can change |
| App.Server.Describe | app.py:140-144 | the listing loop looks up the room of each kept webhook, in order. Either every lookup returns a room and each kept webhook is shown with its title, or the loop stops at the first kept webhook whose lookup raises or finds nothing, with that error. The whole log stays replayed against the provider, and of the environment only the access token can change |
| App.Server.Subscribe | app.py:115-146 | set-up as `SetUp` states; an exception there escapes with no listing. Otherwise one list call: an exception from it escapes, an empty or missing listing returns None, and any other listing goes through the listing loop as `Describe` states. Every call it logs was answered as the provider answers it (through `Policy`), the whole log stays replayed, and of the environment only the access token can change |

## Left out

- Flask routing, template rendering, redirects and the HTML pages. Each handler returns which branch it took.
- HTTP and JSON parsing. A response is a status and a typed body. Modelled are a grant without `access_token` or `refresh_token` (absent `Option` fields), a message without `text`, and a 200 body that lacks the record or the `items` list the code reads (the `Other` body). Other fields the code reads unconditionally are taken to be present: `personEmail` of a message (app.py:266), `id` and `title` of a listed room (webex.py:94-96, webex.py:175), `created` of a message (app.py:250), `id` of a fetched message (webex.py:197), `id` of a created webhook (webex.py:132), and `name` and `filter` of a listed webhook (app.py:142-143). The inbound event is given already parsed (`App.Inbound`); a malformed event body is not modelled.
- HMAC-SHA1 (RFC 2104). It is an uninterpreted function of the secret and the raw body, and only the equality gate is modelled. Properties of the digest itself are not stated.
- SMTP, MIME assembly, base64, and reading the logo and template files. An `Email` carries the values the template is rendered with. A delivery attempt is logged whether or not SMTP succeeds, as the source catches every SMTP exception.
- `random.choices`. `App.GenerateStateParam` chooses any string that meets the postcondition.
- Concurrent requests racing on `state`, on `settings` and on the environment.
- `print` logging.
- Webex.RoomIndex: the `for` loop with an early return in `get_room_id` is a recursive function, not a loop. The decorator takes the response classifier as a function value, and a method cannot be passed that way.
- App.Listed: `subscribe` adds a `spaceName` key to each listed webhook dictionary in place. The model pairs each webhook with its title instead, so the mutation of the listing is not modelled.
- App.Server.Webhook: when the matching space has no recipients, nothing states whether the message could have been formatted, since `send_email` is never called.
- `settings_template.py` contributes only its shape and the initial empty tokens. The email password, SMTP host and port are not modelled.
