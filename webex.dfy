/**
 * webex.py: thin wrappers around the messaging provider's REST API, each
 * decorated with a refresh-on-expire retry policy.
 *
 * Every HTTP exchange is abstracted into a `Request` sent to a `Provider`,
 * which answers with a status code and a typed JSON body. Each wrapper is a
 * `Call`: how to build its request from a bearer token, and how to classify
 * the response (a value, None, the token-expired signal, or a body that lacks
 * a field the wrapper reads).
 */
module Webex {
  import opened Wrappers
  import opened PyStrings
  import opened Settings

  /** The name given to every webhook this application creates. */
  const WEBHOOK_NAME := "Space Email Webhook"
  /** The resource and event every webhook of this application subscribes to. */
  const WEBHOOK_RESOURCE := "messages"
  const WEBHOOK_EVENT := "created"

  datatype Room = Room(id: string, title: string)

  /** A message record; the optional fields are keys that may be absent from the JSON. */
  datatype Message = Message(
    id: string,
    text: Option<string>,
    markdown: Option<string>,
    html: Option<string>,
    personEmail: string,
    created: string)

  datatype Webhook = Webhook(id: string, name: string, filter: string)

  /** Everything this process sends to the provider. */
  datatype Request =
    | RefreshGrant(clientId: string, clientSecret: string, refreshToken: string)
    | CodeGrant(clientId: string, clientSecret: string, code: string, redirectUri: string)
    | ListRooms(token: string)
    | GetRoom(token: string, roomId: string)
    | GetMessage(token: string, messageId: string)
    | CreateWebhook(token: string, resource: string, event: string, filter: string, targetUrl: string,
                    name: string, secret: string)
    | ListWebhooks(token: string)

  /** The JSON bodies the provider answers with; `Other` is any other document (an error text). */
  datatype Body =
    | RoomItems(rooms: seq<Room>)
    | RoomRecord(room: Room)
    | MessageRecord(message: Message)
    | WebhookRecord(webhook: Webhook)
    | WebhookItems(webhooks: seq<Webhook>)
    | TokenGrant(accessToken: Option<string>, refreshToken: Option<string>)
    | Other

  datatype Response = Response(status: int, body: Body)

  /** The provider's behaviour: its answer may depend on everything it was sent before. */
  type Answer = (seq<Request>, Request) -> Response

  /** The remote provider, with the log of every request this process has sent it. */
  class Provider {
    const answer: Answer
    var sent: seq<Request>

    constructor (answer: Answer)
      ensures this.answer == answer && sent == []
    {
      this.answer := answer;
      sent := [];
    }

    method Send(request: Request) returns (response: Response)
      modifies this
      ensures sent == old(sent) + [request]
      ensures response == answer(old(sent), request)
    {
      response := answer(sent, request);
      sent := sent + [request];
    }
  }

  /** The two entries of `os.environ` the wrappers use. */
  class Environ {
    var oauthToken: Option<string>
    var refreshToken: Option<string>

    constructor (oauthToken: Option<string>, refreshToken: Option<string>)
      ensures this.oauthToken == oauthToken && this.refreshToken == refreshToken
    {
      this.oauthToken := oauthToken;
      this.refreshToken := refreshToken;
    }
  }

  /**
   * What one undecorated wrapper does with a response: return a value, return
   * None, raise `TokenExceptionError` (Expired), or raise some other exception
   * because a 200 body lacks a field it reads (Broken).
   */
  datatype Reply<T> = Value(value: T) | NoValue | Expired | Broken

  /**
   * Why a decorated call raises. In the source all three surface as the
   * `UnboundLocalError` of `finally: return result` with `result` never assigned.
   */
  datatype Failure =
    | ExpiredAgain     // the retry signalled expiry too
    | RefreshRejected  // the refresh exchange was not a 200, so `os.environ[...] = None` fails
    | MalformedBody    // a 200 body without a field the code reads

  /** What a decorated call gives its caller: a value or None, or an exception. */
  datatype Outcome<T> = Returned(result: Option<T>) | Raised(failure: Failure)

  /** An undecorated wrapper: the request it sends for a bearer token, and how it classifies the answer. */
  datatype Call<T> = Call(request: string -> Request, classify: Response -> Reply<T>)

  /**
   * A call the application makes to the Webex service, in the order made: a
   * decorated wrapper's invocation with the outcome it handed back, or the
   * undecorated authorization-code exchange with the response it got.
   */
  datatype Op =
    | GetRoomIdOp(token: string, target: string, found: Outcome<string>)
    | ConfigureWebhookOp(token: string, roomId: string, created: Outcome<Webhook>)
    | ListWebhooksOp(token: string, listed: Outcome<seq<Webhook>>)
    | RoomDetailsOp(token: string, roomId: string, room: Outcome<Room>)
    | MessageDetailsOp(token: string, messageId: string, message: Outcome<Message>)
    | CodeExchangeOp(exchange: Request, response: Response)

  /** refresh_expired_token: the new access token on a 200, None on anything else. */
  function RefreshReply(response: Response): (r: Reply<string>)
    ensures !r.Expired?
    ensures r.NoValue? <==> response.status != 200
    ensures r.Value? <==> response.status == 200 && response.body.TokenGrant? && response.body.accessToken.Some?
    ensures r.Value? ==> r.value == response.body.accessToken.value
  {
    if response.status == 200 then
      match response.body
      case TokenGrant(Some(access), _) => Value(access)
      case _ => Broken
    else NoValue
  }

  /** The position of the first room whose title is exactly `target`. */
  function RoomIndex(rooms: seq<Room>, target: string): (k: Option<nat>)
    ensures k.Some? ==> k.value < |rooms| && rooms[k.value].title == target
    ensures k.Some? ==> forall j :: 0 <= j < k.value ==> rooms[j].title != target
    ensures k.None? ==> forall j :: 0 <= j < |rooms| ==> rooms[j].title != target
  {
    if rooms == [] then None
    else if rooms[0].title == target then Some(0)
    else
      match RoomIndex(rooms[1..], target)
      case Some(k) => Some(k + 1)
      case None => None
  }

  /** get_room_id: on 200, the id of the first room titled `target`, or None when there is none. */
  function RoomIdReply(response: Response, target: string): (r: Reply<string>)
    ensures r.Expired? <==> response.status == 401
    ensures r.Broken? <==> response.status == 200 && !response.body.RoomItems?
    ensures response.status != 200 && response.status != 401 ==> r.NoValue?
    ensures r.Value? ==> (response.status == 200 && response.body.RoomItems? &&
      exists k :: 0 <= k < |response.body.rooms| && response.body.rooms[k].id == r.value &&
        response.body.rooms[k].title == target &&
        forall j :: 0 <= j < k ==> response.body.rooms[j].title != target)
    ensures response.status == 200 && response.body.RoomItems? ==>
      (r.NoValue? <==> forall j :: 0 <= j < |response.body.rooms| ==> response.body.rooms[j].title != target)
  {
    if response.status == 200 then
      match response.body
      case RoomItems(rooms) =>
        (match RoomIndex(rooms, target)
         case Some(k) => Value(rooms[k].id)
         case None => NoValue)
      case _ => Broken
    else if response.status == 401 then Expired
    else NoValue
  }

  /** configure_webhook: the created webhook on 200, a silent None on 409 (it already exists). */
  function CreatedReply(response: Response): (r: Reply<Webhook>)
    ensures r.Expired? <==> response.status == 401
    ensures r.Value? <==> response.status == 200 && response.body.WebhookRecord?
    ensures r.Value? ==> r.value == response.body.webhook
    ensures r.Broken? <==> response.status == 200 && !response.body.WebhookRecord?
    ensures response.status == 409 ==> r.NoValue?
  {
    if response.status == 200 then
      match response.body
      case WebhookRecord(webhook) => Value(webhook)
      case _ => Broken
    else if response.status == 409 then NoValue
    else if response.status == 401 then Expired
    else NoValue
  }

  /** list_webhooks: the listed webhooks on 200; every other status, 401 included, gives None. */
  function WebhooksReply(response: Response): (r: Reply<seq<Webhook>>)
    ensures !r.Expired?
    ensures r.NoValue? <==> response.status != 200
    ensures r.Value? <==> response.status == 200 && response.body.WebhookItems?
    ensures r.Value? ==> r.value == response.body.webhooks
  {
    if response.status == 200 then
      match response.body
      case WebhookItems(webhooks) => Value(webhooks)
      case _ => Broken
    else NoValue
  }

  /** room_details: the room on 200. */
  function RoomReply(response: Response): (r: Reply<Room>)
    ensures r.Expired? <==> response.status == 401
    ensures r.Value? <==> response.status == 200 && response.body.RoomRecord?
    ensures r.Value? ==> r.value == response.body.room
    ensures r.NoValue? <==> response.status != 200 && response.status != 401
  {
    if response.status == 200 then
      match response.body
      case RoomRecord(room) => Value(room)
      case _ => Broken
    else if response.status == 401 then Expired
    else NoValue
  }

  /**
   * message_details: the message on 200. The wrapper logs `message['text']`,
   * so a 200 message without a text field raises.
   */
  function MessageReply(response: Response): (r: Reply<Message>)
    ensures r.Expired? <==> response.status == 401
    ensures r.Value? <==> response.status == 200 && response.body.MessageRecord? && response.body.message.text.Some?
    ensures r.Value? ==> r.value == response.body.message
    ensures r.NoValue? <==> response.status != 200 && response.status != 401
  {
    if response.status == 200 then
      match response.body
      case MessageRecord(message) => if message.text.Some? then Value(message) else Broken
      case _ => Broken
    else if response.status == 401 then Expired
    else NoValue
  }

  /** The webhook filter configure_webhook registers for a room. */
  function WebhookFilter(roomId: string): (f: string)
    ensures |f| == |"roomId="| + |roomId|
    ensures f[..|"roomId="|] == "roomId=" && f[|"roomId="|..] == roomId
  {
    "roomId=" + roomId
  }

  /** get_room_id: lists the rooms with the caller's token; 401 alone signals expiry. */
  function GetRoomIdCall(target: string): (c: Call<string>)
    ensures forall token :: c.request(token) == ListRooms(token)
    ensures forall response :: c.classify(response).Expired? <==> response.status == 401
  {
    Call(token => ListRooms(token), response => RoomIdReply(response, target))
  }

  /**
   * configure_webhook: creates a webhook on new messages of the room, named
   * like every webhook of this application and signed with the configured secret.
   */
  function ConfigureWebhookCall(config: Config, roomId: string): (c: Call<Webhook>)
    ensures forall token :: c.request(token).CreateWebhook? && c.request(token).token == token
    ensures forall token :: c.request(token).resource == "messages" && c.request(token).event == "created"
    ensures forall token :: c.request(token).filter == WebhookFilter(roomId) && c.request(token).name == WEBHOOK_NAME
    ensures forall token :: c.request(token).targetUrl == config.webhookUri && c.request(token).secret == config.secret
    ensures forall response: Response :: response.status == 409 ==> c.classify(response) == NoValue
  {
    Call(token => CreateWebhook(token, WEBHOOK_RESOURCE, WEBHOOK_EVENT, WebhookFilter(roomId), config.webhookUri,
                                WEBHOOK_NAME, config.secret),
         CreatedReply)
  }

  /** list_webhooks: lists the caller's webhooks; no answer signals expiry. */
  function ListWebhooksCall(): (c: Call<seq<Webhook>>)
    ensures forall token :: c.request(token) == ListWebhooks(token)
    ensures forall response :: !c.classify(response).Expired?
  {
    Call(token => ListWebhooks(token), WebhooksReply)
  }

  /** room_details: fetches the one room by id; 401 alone signals expiry. */
  function RoomDetailsCall(roomId: string): (c: Call<Room>)
    ensures forall token :: c.request(token) == GetRoom(token, roomId)
    ensures forall response :: c.classify(response).Expired? <==> response.status == 401
  {
    Call(token => GetRoom(token, roomId), RoomReply)
  }

  /** message_details: fetches the one message by id; 401 alone signals expiry. */
  function MessageDetailsCall(messageId: string): (c: Call<Message>)
    ensures forall token :: c.request(token) == GetMessage(token, messageId)
    ensures forall response :: c.classify(response).Expired? <==> response.status == 401
  {
    Call(token => GetMessage(token, messageId), MessageReply)
  }

  /** How the decorator hands a final reply to its caller: values and None pass, exceptions propagate. */
  function Settle<T>(r: Reply<T>): (o: Outcome<T>)
    ensures o.Returned? <==> r.Value? || r.NoValue?
    ensures r.Value? <==> o.Returned? && o.result.Some?
    ensures r.Value? ==> o.result.value == r.value
    ensures r.Expired? <==> o == Raised(ExpiredAgain)
  {
    match r
    case Value(v) => Returned(Some(v))
    case NoValue => Returned(None)
    case Expired => Raised(ExpiredAgain)
    case Broken => Raised(MalformedBody)
  }

  /**
   * One decorated call: the outcome handed back, the requests sent in order,
   * and the access token written to the environment (None: nothing written).
   */
  datatype Trace<T> = Trace(outcome: Outcome<T>, requests: seq<Request>, stored: Option<string>)

  /**
   * refresh_on_expire as a function of the provider's behaviour: given what
   * was sent before, the refresh exchange `grant` and the wrapped call, what
   * one decorated call does.
   */
  function Policy<T>(answer: Answer, sent: seq<Request>, grant: Request, func: Call<T>, token: string): (t: Trace<T>)
    ensures 1 <= |t.requests| <= 3 && t.requests[0] == func.request(token)
    // A first call that does not signal expiry is the only request, and its result is returned.
    ensures var first := func.classify(answer(sent, func.request(token)));
      !first.Expired? ==> |t.requests| == 1 && t.stored.None? && t.outcome == Settle(first)
    // Expiry triggers exactly one refresh exchange, right after the first call.
    ensures var first := func.classify(answer(sent, func.request(token)));
      first.Expired? ==> |t.requests| >= 2 && t.requests[1] == grant
    // A retry happens exactly when the exchange produced a token; it is stored and the retry carries it.
    ensures t.stored.Some? <==> |t.requests| == 3
    ensures t.stored.Some? ==>
      RefreshReply(answer(sent + t.requests[..1], grant)) == Value(t.stored.value) &&
      t.requests[2] == func.request(t.stored.value)
    // Conversely, an exchange that yields a token is always followed by the retry with that token,
    // and one that yields none ends the call with an exception after two requests.
    ensures var first := func.classify(answer(sent, func.request(token)));
      var renewal := RefreshReply(answer(sent + [func.request(token)], grant));
      first.Expired? && renewal.Value? ==> t.stored == Some(renewal.value)
    ensures var first := func.classify(answer(sent, func.request(token)));
      var renewal := RefreshReply(answer(sent + [func.request(token)], grant));
      first.Expired? && !renewal.Value? ==>
        |t.requests| == 2 && t.outcome == Raised(if renewal.NoValue? then RefreshRejected else MalformedBody)
    // The retry's reply is final: there is no second retry.
    ensures t.stored.Some? ==> t.outcome == Settle(func.classify(answer(sent + t.requests[..2], t.requests[2])))
    // A failed exchange raises without retrying.
    ensures |t.requests| == 2 ==> t.outcome.Raised?
  {
    var first := func.request(token);
    var reply := func.classify(answer(sent, first));
    if !reply.Expired? then Trace(Settle(reply), [first], None)
    else
      match RefreshReply(answer(sent + [first], grant))
      case Value(renewed) =>
        var retry := func.request(renewed);
        assert [first, grant, retry][..1] == [first] && [first, grant, retry][..2] == [first, grant];
        Trace(Settle(func.classify(answer(sent + [first, grant], retry))), [first, grant, retry], Some(renewed))
      case NoValue => Trace(Raised(RefreshRejected), [first, grant], None)
      case _ => Trace(Raised(MalformedBody), [first, grant], None)
  }

  /** The state change a trace describes: the log grows by its requests, a stored token replaces the old one. */
  ghost predicate Performed<T>(t: Trace<T>, out: Outcome<T>, before: seq<Request>, after: seq<Request>,
                         tokenBefore: Option<string>, tokenAfter: Option<string>)
  {
    out == t.outcome && after == before + t.requests &&
    tokenAfter == (if t.stored.Some? then t.stored else tokenBefore)
  }

  /** The requests the decorated call a log entry stands for sends, given what was sent before it. */
  function Sends(answer: Answer, grant: Request, config: Config, sent: seq<Request>, op: Op): seq<Request>
  {
    match op
    case GetRoomIdOp(token, target, _) => Policy(answer, sent, grant, GetRoomIdCall(target), token).requests
    case ConfigureWebhookOp(token, roomId, _) =>
      Policy(answer, sent, grant, ConfigureWebhookCall(config, roomId), token).requests
    case ListWebhooksOp(token, _) => Policy(answer, sent, grant, ListWebhooksCall(), token).requests
    case RoomDetailsOp(token, roomId, _) => Policy(answer, sent, grant, RoomDetailsCall(roomId), token).requests
    case MessageDetailsOp(token, messageId, _) =>
      Policy(answer, sent, grant, MessageDetailsCall(messageId), token).requests
    case CodeExchangeOp(exchange, _) => [exchange]
  }

  /** The outcome a log entry records is the one its decorated call hands back, given what was sent before it. */
  predicate Answered(answer: Answer, grant: Request, config: Config, sent: seq<Request>, op: Op)
  {
    match op
    case GetRoomIdOp(token, target, found) => found == Policy(answer, sent, grant, GetRoomIdCall(target), token).outcome
    case ConfigureWebhookOp(token, roomId, created) =>
      created == Policy(answer, sent, grant, ConfigureWebhookCall(config, roomId), token).outcome
    case ListWebhooksOp(token, listed) => listed == Policy(answer, sent, grant, ListWebhooksCall(), token).outcome
    case RoomDetailsOp(token, roomId, room) =>
      room == Policy(answer, sent, grant, RoomDetailsCall(roomId), token).outcome
    case MessageDetailsOp(token, messageId, message) =>
      message == Policy(answer, sent, grant, MessageDetailsCall(messageId), token).outcome
    case CodeExchangeOp(exchange, response) => response == answer(sent, exchange)
  }

  /**
   * What one log entry does to the requests sent so far: the requests of its
   * decorated call are appended, provided the outcome it records is the one
   * that call hands back (None otherwise).
   */
  function Step(answer: Answer, grant: Request, config: Config, sent: seq<Request>, op: Op): Option<seq<Request>>
  {
    if Answered(answer, grant, config, sent, op) then Some(sent + Sends(answer, grant, config, sent, op)) else None
  }

  /** A log `ops` run through `step` from the requests `before`, every entry going through and ending with `after`. */
  predicate Chained(step: (seq<Request>, Op) -> Option<seq<Request>>, before: seq<Request>, ops: seq<Op>,
                    after: seq<Request>)
    decreases |ops|
  {
    if ops == [] then after == before
    else step(before, ops[0]).Some? && Chained(step, step(before, ops[0]).value, ops[1..], after)
  }

  /** Two logs run one after the other run as their concatenation. */
  lemma {:induction false} ChainedAppend(step: (seq<Request>, Op) -> Option<seq<Request>>, s0: seq<Request>,
                                         a: seq<Op>, s1: seq<Request>, b: seq<Op>, s2: seq<Request>)
    requires Chained(step, s0, a, s1) && Chained(step, s1, b, s2)
    ensures Chained(step, s0, a + b, s2)
    decreases |a|
  {
    if a == [] {
      assert a + b == b;
    } else {
      ChainedAppend(step, step(s0, a[0]).value, a[1..], s1, b, s2);
      assert (a + b)[0] == a[0] && (a + b)[1..] == a[1..] + b;
    }
  }

  /**
   * The log `ops`, begun when the provider had been sent `before`, is what the
   * provider's answers produce: every recorded outcome is the one the decorated
   * call hands back, and the provider is sent exactly the calls' requests, in
   * order, ending with `after`.
   */
  predicate Replays(answer: Answer, grant: Request, config: Config, before: seq<Request>, ops: seq<Op>,
                    after: seq<Request>)
  {
    Chained((sent, op) => Step(answer, grant, config, sent, op), before, ops, after)
  }

  /** One decorated call replays as the one entry it logs. */
  lemma ReplaysOne(answer: Answer, grant: Request, config: Config, before: seq<Request>, op: Op, after: seq<Request>)
    requires Answered(answer, grant, config, before, op)
    requires after == before + Sends(answer, grant, config, before, op)
    ensures Replays(answer, grant, config, before, [op], after)
  {
    assert [op][1..] == [];
  }

  /** Two logs replayed one after the other replay as their concatenation. */
  lemma ReplaysAppend(answer: Answer, grant: Request, config: Config, s0: seq<Request>,
                      a: seq<Op>, s1: seq<Request>, b: seq<Op>, s2: seq<Request>)
    requires Replays(answer, grant, config, s0, a, s1) && Replays(answer, grant, config, s1, b, s2)
    ensures Replays(answer, grant, config, s0, a + b, s2)
  {
    ChainedAppend((sent, op) => Step(answer, grant, config, sent, op), s0, a, s1, b, s2);
  }

  /** A run that goes through `a` and then on through `b` goes on through `b` from wherever `a` ended. */
  lemma {:induction false} ChainedSplit(step: (seq<Request>, Op) -> Option<seq<Request>>, s0: seq<Request>,
                                        a: seq<Op>, s1: seq<Request>, b: seq<Op>, s2: seq<Request>)
    requires Chained(step, s0, a, s1) && Chained(step, s0, a + b, s2)
    ensures Chained(step, s1, b, s2)
    decreases |a|
  {
    if a == [] {
      assert a + b == b;
    } else {
      assert (a + b)[0] == a[0] && (a + b)[1..] == a[1..] + b;
      ChainedSplit(step, step(s0, a[0]).value, a[1..], s1, b, s2);
    }
  }

  /**
   * The calls logged after a replayed prefix replay on their own, from the
   * requests the prefix ended with: each of them is answered as the provider
   * answers it at that point.
   */
  lemma ReplaysSplit(answer: Answer, grant: Request, config: Config, s0: seq<Request>,
                     a: seq<Op>, s1: seq<Request>, b: seq<Op>, s2: seq<Request>)
    requires Replays(answer, grant, config, s0, a, s1) && Replays(answer, grant, config, s0, a + b, s2)
    ensures Replays(answer, grant, config, s1, b, s2)
  {
    ChainedSplit((sent, op) => Step(answer, grant, config, sent, op), s0, a, s1, b, s2);
  }

  /**
   * Every logged call sent the provider at least one request, after those it
   * had been sent before: a log cannot record a call that was not made.
   */
  lemma {:induction false} ReplaysSends(answer: Answer, grant: Request, config: Config, before: seq<Request>,
                                        ops: seq<Op>, after: seq<Request>)
    requires Replays(answer, grant, config, before, ops, after)
    ensures |after| >= |before| + |ops| && after[..|before|] == before
    decreases |ops|
  {
    if ops != [] {
      var next := before + Sends(answer, grant, config, before, ops[0]);
      assert |Sends(answer, grant, config, before, ops[0])| >= 1;
      ReplaysSends(answer, grant, config, next, ops[1..], after);
      assert after[..|before|] == next[..|before|];
    }
  }

  /**
   * The outcomes a log records are forced: two logs of the same calls, begun
   * from the same requests, record the same outcomes and end with the same requests.
   */
  lemma {:induction false} ReplaysDetermined(answer: Answer, grant: Request, config: Config, before: seq<Request>,
                                             ops: seq<Op>, after: seq<Request>, ops': seq<Op>, after': seq<Request>)
    requires Replays(answer, grant, config, before, ops, after) && Replays(answer, grant, config, before, ops', after')
    requires |ops| == |ops'| && forall i :: 0 <= i < |ops| ==> SameCall(ops[i], ops'[i])
    ensures ops == ops' && after == after'
    decreases |ops|
  {
    if ops != [] {
      assert ops[0] == ops'[0];
      ReplaysDetermined(answer, grant, config, before + Sends(answer, grant, config, before, ops[0]),
                        ops[1..], after, ops'[1..], after');
      assert ops == [ops[0]] + ops[1..] && ops' == [ops'[0]] + ops'[1..];
    }
  }

  /** Two log entries for the same call with the same arguments, whatever their outcomes. */
  predicate SameCall(op: Op, op': Op)
  {
    match op
    case GetRoomIdOp(token, target, _) => op'.GetRoomIdOp? && op'.token == token && op'.target == target
    case ConfigureWebhookOp(token, roomId, _) => op'.ConfigureWebhookOp? && op'.token == token && op'.roomId == roomId
    case ListWebhooksOp(token, _) => op'.ListWebhooksOp? && op'.token == token
    case RoomDetailsOp(token, roomId, _) => op'.RoomDetailsOp? && op'.token == token && op'.roomId == roomId
    case MessageDetailsOp(token, messageId, _) =>
      op'.MessageDetailsOp? && op'.token == token && op'.messageId == messageId
    case CodeExchangeOp(exchange, _) => op'.CodeExchangeOp? && op'.exchange == exchange
  }

  /** list_webhooks has no 401 branch, so a decorated list call never refreshes. */
  lemma ListWebhooksNeverRefreshes(answer: Answer, sent: seq<Request>, grant: Request, token: string)
    ensures Policy(answer, sent, grant, ListWebhooksCall(), token).requests == [ListWebhooks(token)]
    ensures var response := answer(sent, ListWebhooks(token));
      Policy(answer, sent, grant, ListWebhooksCall(), token).outcome ==
        if response.status != 200 then Returned(None) else Settle(WebhooksReply(response))
  {
  }

  /** A 409 on webhook creation is a silent None, with no refresh. */
  lemma ConflictIsSilent(answer: Answer, sent: seq<Request>, grant: Request, config: Config, roomId: string, token: string)
    requires answer(sent, ConfigureWebhookCall(config, roomId).request(token)).status == 409
    ensures Policy(answer, sent, grant, ConfigureWebhookCall(config, roomId), token) ==
      Trace(Returned(None), [ConfigureWebhookCall(config, roomId).request(token)], None)
  {
  }

  /**
   * The module `webex` after import: each wrapper has been decorated, and the
   * decorator read `os.getenv('refresh_token')` at that moment.
   */
  class Webex {
    const config: Config
    const provider: Provider
    const env: Environ
    /** The refresh token captured at decoration time; later changes to the environment are not seen. */
    const refreshToken: Option<string>
    ghost var invoked: seq<Op>
    /** The requests the provider had been sent before the first logged call. */
    ghost const origin: seq<Request>

    /** Every call logged is answered as the provider answers it, and the provider got exactly their requests. */
    ghost predicate Replayed()
      reads this, provider
    {
      Replays(provider.answer, RefreshRequest(), config, origin, invoked, provider.sent)
    }

    /** The calls `ops` were answered as the provider answers them, from the requests `before` on to those sent now. */
    ghost predicate Answers(before: seq<Request>, ops: seq<Op>)
      reads this, provider
    {
      Replays(provider.answer, RefreshRequest(), config, before, ops, provider.sent)
    }

    /**
     * With the whole log replayed, the calls logged since an earlier replayed
     * state were answered as the provider answers them from the requests sent then.
     */
    lemma ReplayedSince(log: seq<Op>, sent: seq<Request>, ops: seq<Op>)
      requires Replays(provider.answer, RefreshRequest(), config, origin, log, sent)
      requires Replayed() && invoked == log + ops
      ensures Answers(sent, ops)
    {
      ReplaysSplit(provider.answer, RefreshRequest(), config, origin, log, sent, ops, provider.sent);
    }

    constructor (config: Config, provider: Provider, env: Environ)
      ensures this.config == config && this.provider == provider && this.env == env
      ensures refreshToken == env.refreshToken && invoked == [] && origin == provider.sent
      ensures Replayed()
    {
      this.config := config;
      this.provider := provider;
      this.env := env;
      refreshToken := env.refreshToken;
      invoked := [];
      origin := provider.sent;
    }

    /** The refresh-token grant, formatted with the captured token (`"None"` if it was unset). */
    function RefreshRequest(): (r: Request)
      ensures r.RefreshGrant? && r.clientId == config.clientId && r.clientSecret == config.secretId
      ensures refreshToken.None? ==> r.refreshToken == "None"
      ensures refreshToken.Some? ==> r.refreshToken == refreshToken.value
    {
      RefreshGrant(config.clientId, config.secretId, PyStr(refreshToken))
    }

    /** refresh_on_expire's wrapper applied to `func`. */
    method RefreshOnExpire<T>(func: Call<T>, token: string) returns (out: Outcome<T>)
      modifies provider, env`oauthToken
      ensures Performed(Policy(provider.answer, old(provider.sent), RefreshRequest(), func, token),
                        out, old(provider.sent), provider.sent, old(env.oauthToken), env.oauthToken)
    {
      ghost var before := provider.sent;
      var response := provider.Send(func.request(token));
      var reply := func.classify(response);
      if !reply.Expired? {
        out := Settle(reply);
        return;
      }
      var grant := provider.Send(RefreshRequest());
      match RefreshReply(grant) {
        case Value(renewed) =>
          env.oauthToken := Some(renewed);
          assert provider.sent == before + [func.request(token), RefreshRequest()];
          var retried := provider.Send(func.request(env.oauthToken.value));
          out := Settle(func.classify(retried));
        case NoValue =>
          out := Raised(RefreshRejected);
        case _ =>
          out := Raised(MalformedBody);
      }
    }

    method GetRoomId(token: string, target: string) returns (out: Outcome<string>)
      modifies this`invoked, provider, env`oauthToken
      requires Replayed()
      ensures Replayed()
      ensures invoked == old(invoked) + [GetRoomIdOp(token, target, out)]
      ensures Replays(provider.answer, RefreshRequest(), config, old(provider.sent), [GetRoomIdOp(token, target, out)], provider.sent)
      ensures Performed(Policy(provider.answer, old(provider.sent), RefreshRequest(), GetRoomIdCall(target), token),
                        out, old(provider.sent), provider.sent, old(env.oauthToken), env.oauthToken)
    {
      out := RefreshOnExpire(GetRoomIdCall(target), token);
      invoked := invoked + [GetRoomIdOp(token, target, out)];
      ReplaysOne(provider.answer, RefreshRequest(), config, old(provider.sent), GetRoomIdOp(token, target, out), provider.sent);
      ReplaysAppend(provider.answer, RefreshRequest(), config, origin, old(invoked), old(provider.sent), [GetRoomIdOp(token, target, out)],
                    provider.sent);
    }

    method ConfigureWebhook(token: string, roomId: string) returns (out: Outcome<Webhook>)
      modifies this`invoked, provider, env`oauthToken
      requires Replayed()
      ensures Replayed()
      ensures invoked == old(invoked) + [ConfigureWebhookOp(token, roomId, out)]
      ensures Replays(provider.answer, RefreshRequest(), config, old(provider.sent), [ConfigureWebhookOp(token, roomId, out)], provider.sent)
      ensures Performed(Policy(provider.answer, old(provider.sent), RefreshRequest(), ConfigureWebhookCall(config, roomId), token),
                        out, old(provider.sent), provider.sent, old(env.oauthToken), env.oauthToken)
    {
      out := RefreshOnExpire(ConfigureWebhookCall(config, roomId), token);
      invoked := invoked + [ConfigureWebhookOp(token, roomId, out)];
      ReplaysOne(provider.answer, RefreshRequest(), config, old(provider.sent), ConfigureWebhookOp(token, roomId, out), provider.sent);
      ReplaysAppend(provider.answer, RefreshRequest(), config, origin, old(invoked), old(provider.sent), [ConfigureWebhookOp(token, roomId, out)],
                    provider.sent);
    }

    method ListWebhooks(token: string) returns (out: Outcome<seq<Webhook>>)
      modifies this`invoked, provider, env`oauthToken
      requires Replayed()
      ensures Replayed()
      ensures invoked == old(invoked) + [ListWebhooksOp(token, out)]
      ensures Replays(provider.answer, RefreshRequest(), config, old(provider.sent), [ListWebhooksOp(token, out)], provider.sent)
      ensures Performed(Policy(provider.answer, old(provider.sent), RefreshRequest(), ListWebhooksCall(), token),
                        out, old(provider.sent), provider.sent, old(env.oauthToken), env.oauthToken)
    {
      out := RefreshOnExpire(ListWebhooksCall(), token);
      invoked := invoked + [ListWebhooksOp(token, out)];
      ReplaysOne(provider.answer, RefreshRequest(), config, old(provider.sent), ListWebhooksOp(token, out), provider.sent);
      ReplaysAppend(provider.answer, RefreshRequest(), config, origin, old(invoked), old(provider.sent), [ListWebhooksOp(token, out)],
                    provider.sent);
    }

    method RoomDetails(token: string, roomId: string) returns (out: Outcome<Room>)
      modifies this`invoked, provider, env`oauthToken
      requires Replayed()
      ensures Replayed()
      ensures invoked == old(invoked) + [RoomDetailsOp(token, roomId, out)]
      ensures Replays(provider.answer, RefreshRequest(), config, old(provider.sent), [RoomDetailsOp(token, roomId, out)], provider.sent)
      ensures Performed(Policy(provider.answer, old(provider.sent), RefreshRequest(), RoomDetailsCall(roomId), token),
                        out, old(provider.sent), provider.sent, old(env.oauthToken), env.oauthToken)
    {
      out := RefreshOnExpire(RoomDetailsCall(roomId), token);
      invoked := invoked + [RoomDetailsOp(token, roomId, out)];
      ReplaysOne(provider.answer, RefreshRequest(), config, old(provider.sent), RoomDetailsOp(token, roomId, out), provider.sent);
      ReplaysAppend(provider.answer, RefreshRequest(), config, origin, old(invoked), old(provider.sent), [RoomDetailsOp(token, roomId, out)],
                    provider.sent);
    }

    method MessageDetails(token: string, messageId: string) returns (out: Outcome<Message>)
      modifies this`invoked, provider, env`oauthToken
      requires Replayed()
      ensures Replayed()
      ensures invoked == old(invoked) + [MessageDetailsOp(token, messageId, out)]
      ensures Replays(provider.answer, RefreshRequest(), config, old(provider.sent), [MessageDetailsOp(token, messageId, out)], provider.sent)
      ensures Performed(Policy(provider.answer, old(provider.sent), RefreshRequest(), MessageDetailsCall(messageId), token),
                        out, old(provider.sent), provider.sent, old(env.oauthToken), env.oauthToken)
    {
      out := RefreshOnExpire(MessageDetailsCall(messageId), token);
      invoked := invoked + [MessageDetailsOp(token, messageId, out)];
      ReplaysOne(provider.answer, RefreshRequest(), config, old(provider.sent), MessageDetailsOp(token, messageId, out), provider.sent);
      ReplaysAppend(provider.answer, RefreshRequest(), config, origin, old(invoked), old(provider.sent), [MessageDetailsOp(token, messageId, out)],
                    provider.sent);
    }

    /** A request sent outside the decorator (the code exchange of get_tokens), logged with its response. */
    method Exchange(request: Request) returns (response: Response)
      requires Replayed()
      modifies this`invoked, provider
      ensures Replayed()
      ensures invoked == old(invoked) + [CodeExchangeOp(request, response)]
      ensures provider.sent == old(provider.sent) + [request]
      ensures response == provider.answer(old(provider.sent), request)
    {
      response := provider.Send(request);
      invoked := invoked + [CodeExchangeOp(request, response)];
      ReplaysOne(provider.answer, RefreshRequest(), config, old(provider.sent), CodeExchangeOp(request, response),
                 provider.sent);
      ReplaysAppend(provider.answer, RefreshRequest(), config, origin, old(invoked), old(provider.sent),
                    [CodeExchangeOp(request, response)], provider.sent);
    }
  }
}
