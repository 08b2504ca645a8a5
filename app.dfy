/**
 * app.py: the Flask handlers of the bridge. Each route is a method of `Server`
 * that returns which branch it took (the page it renders, or the exception
 * that escapes it); rendering, redirects and logging are not modelled.
 */
module App {
  import opened Wrappers
  import opened PyStrings
  import opened Settings
  import opened Webex
  import opened Mail

  /* ---------------------------------------------------------------------- */
  /* The anti-forgery `state` parameter of the authorization-code grant       */
  /* (sections 4.1 and 10.12 of RFC 6749).                                    */
  /* ---------------------------------------------------------------------- */

  const STATE_LENGTH := 15
  const UPPERCASE := "ABCDEFGHIJKLMNOPQRSTUVWXYZ"
  const LOWERCASE := "abcdefghijklmnopqrstuvwxyz"
  const DIGITS := "0123456789"
  /** The population `random.choices` draws from. */
  const ALPHABET := UPPERCASE + LOWERCASE + DIGITS

  predicate IsAsciiAlnum(c: char)
  {
    'A' <= c <= 'Z' || 'a' <= c <= 'z' || '0' <= c <= '9'
  }

  lemma UppercaseRange(c: char)
    ensures c in UPPERCASE <==> 'A' <= c <= 'Z'
  {
    if 'A' <= c <= 'Z' {
      assert UPPERCASE[c as int - 'A' as int] == c;
    }
  }

  lemma LowercaseRange(c: char)
    ensures c in LOWERCASE <==> 'a' <= c <= 'z'
  {
    if 'a' <= c <= 'z' {
      assert LOWERCASE[c as int - 'a' as int] == c;
    }
  }

  lemma DigitsRange(c: char)
    ensures c in DIGITS <==> '0' <= c <= '9'
  {
    if '0' <= c <= '9' {
      assert DIGITS[c as int - '0' as int] == c;
    }
  }

  /** The population is exactly the ASCII letters and digits, 62 of them. */
  lemma AlphabetIsAsciiAlnum(c: char)
    ensures c in ALPHABET <==> IsAsciiAlnum(c)
    ensures |ALPHABET| == 62
  {
    UppercaseRange(c);
    LowercaseRange(c);
    DigitsRange(c);
    assert c in ALPHABET <==> c in UPPERCASE || c in LOWERCASE || c in DIGITS;
  }

  predicate IsStateParam(s: string)
  {
    |s| == STATE_LENGTH && forall i :: 0 <= i < |s| ==> s[i] in ALPHABET
  }

  /** generate_state_param: 15 characters drawn from the letters and digits, chosen freely. */
  method GenerateStateParam() returns (s: string)
    ensures |s| == STATE_LENGTH
    ensures forall i :: 0 <= i < |s| ==> s[i] in ALPHABET && IsAsciiAlnum(s[i])
  {
    assert IsStateParam("AAAAAAAAAAAAAAA");
    s :| IsStateParam(s);
    assert IsStateParam(s);
    forall i | 0 <= i < |s|
      ensures IsAsciiAlnum(s[i])
    {
      AlphabetIsAsciiAlnum(s[i]);
    }
  }

  /* ---------------------------------------------------------------------- */
  /* Webhook dispatch                                                        */
  /* ---------------------------------------------------------------------- */

  /**
   * An inbound webhook request: the raw body, the `X-Spark-Signature` header
   * if sent, and the `data.roomId` and `data.id` fields of the JSON body.
   */
  datatype Inbound = Inbound(raw: string, signature: Option<string>, roomId: string, messageId: string)

  /** The exceptions that escape a handler (Flask answers them with an error page). */
  datatype Crash =
    | ApiRaised(failure: Failure)   // a decorated API call raised
    | UnknownSpace                  // `webex_spaces[{}]`: no configured space has the room's title
    | UnsendableMessage             // send_email: `created` without `T`, or no content field
    | FilterWithoutId               // `filter.split('=')[1]` on a filter without `=`
    | RoomNotFound                  // `room_details(...)['title']` on None
    | GrantWithoutTokens            // get_tokens: a token field missing from the grant response

  datatype WebhookOutcome =
    | Rejected                      // signature mismatch: the event is ignored, the page is rendered
    | Ignored                       // room or message lookup returned None: the view returns None
    | Forwarded                     // one email per recipient, page rendered
    | WebhookFailed(crash: Crash)

  /** The position of the first configured space whose name is exactly `title`. */
  function SpaceIndex(spaces: seq<Space>, title: string): (k: Option<nat>)
    ensures k.Some? ==> k.value < |spaces| && spaces[k.value].name == title
    ensures k.Some? ==> forall j :: 0 <= j < k.value ==> spaces[j].name != title
    ensures k.None? ==> forall j :: 0 <= j < |spaces| ==> spaces[j].name != title
  {
    if spaces == [] then None
    else if spaces[0].name == title then Some(0)
    else
      match SpaceIndex(spaces[1..], title)
      case Some(k) => Some(k + 1)
      case None => None
  }

  /** With distinct keys, the first match is the dictionary lookup: the one space with that name. */
  lemma DictLookup(config: Config, title: string, k: nat)
    requires config.DistinctSpaces() && k < |config.spaces|
    ensures SpaceIndex(config.spaces, title) == Some(k) <==> config.spaces[k].name == title
  {
  }

  /** The loop of webhook() that looks for the space named like the room. */
  method FindSpace(spaces: seq<Space>, title: string) returns (k: Option<nat>)
    ensures k == SpaceIndex(spaces, title)
  {
    k := None;
    var i := 0;
    while i < |spaces|
      invariant 0 <= i <= |spaces|
      invariant forall j :: 0 <= j < i ==> spaces[j].name != title
    {
      if spaces[i].name == title {
        k := Some(i);
        return;
      }
      i := i + 1;
    }
  }

  /* ---------------------------------------------------------------------- */
  /* Subscription                                                            */
  /* ---------------------------------------------------------------------- */

  /** A listed webhook of this application, with the title of the room it watches. */
  datatype Listed = Listed(webhook: Webhook, spaceName: string)

  datatype SubscribeOutcome =
    | Granted(webhooks: seq<Listed>)  // page rendered with these webhooks
    | NothingListed                   // list_webhooks gave None or []: the view returns None
    | SubscribeFailed(crash: Crash)

  /** `w['filter'].split('=')[1]`, or None where the indexing raises. */
  function FilterRoomId(filter: string): (r: Option<string>)
    ensures r.Some? <==> '=' in filter
  {
    SplitPieces(filter, '=');
    var parts := Split(filter, '=');
    if |parts| < 2 then None else Some(parts[1])
  }

  /**
   * Reading a registered filter back gives the room id up to its first `=`;
   * so the round trip gives the id back exactly when the id has no `=`.
   */
  lemma {:induction false} FilterRoundTrip(roomId: string)
    ensures FilterRoomId(WebhookFilter(roomId)) == Some(Split(roomId, '=')[0])
    ensures FilterRoomId(WebhookFilter(roomId)) == Some(roomId) <==> '=' !in roomId
  {
    assert WebhookFilter(roomId) == "roomId" + ['='] + roomId;
    SplitAfterPrefix("roomId", '=', roomId);
    var parts := Split(roomId, '=');
    if '=' !in roomId {
      SplitWithoutSep(roomId, '=');
    } else {
      SplitPieces(roomId, '=');
      assert roomId == parts[0] + ['='] + Join(parts[1..], '=');
    }
  }

  /** The webhooks named like this application's, in their listed order. */
  function Ours(ws: seq<Webhook>): (r: seq<Webhook>)
    ensures |r| <= |ws|
    ensures forall i :: 0 <= i < |r| ==> r[i].name == WEBHOOK_NAME
  {
    if ws == [] then []
    else
      var last := ws[|ws| - 1];
      Ours(ws[..|ws| - 1]) + (if last.name == WEBHOOK_NAME then [last] else [])
  }

  /** Filtering distributes over concatenation, so the listed order is kept. */
  lemma {:induction false} OursAppend(a: seq<Webhook>, b: seq<Webhook>)
    ensures Ours(a + b) == Ours(a) + Ours(b)
    decreases |b|
  {
    if b != [] {
      var n := |b| - 1;
      assert (a + b)[..|a + b| - 1] == a + b[..n];
      OursAppend(a, b[..n]);
    } else {
      assert a + b == a;
    }
  }

  /** Only listed webhooks are kept. */
  lemma {:induction false} OursFromListing(ws: seq<Webhook>, w: Webhook)
    requires w in Ours(ws)
    ensures w in ws
    decreases |ws|
  {
    var n := |ws| - 1;
    if w !in Ours(ws[..n]) {
      assert w == ws[n];
    } else {
      OursFromListing(ws[..n], w);
    }
  }

  /** Nothing named like this application's webhooks is dropped. */
  lemma {:induction false} OursKeepsAll(ws: seq<Webhook>, w: Webhook)
    requires w in ws && w.name == WEBHOOK_NAME
    ensures w in Ours(ws)
    decreases |ws|
  {
    var n := |ws| - 1;
    if ws[n] != w {
      assert w in ws[..n];
      OursKeepsAll(ws[..n], w);
    }
  }

  /** `if not room_id: continue`: subscribe() goes on only with a non-empty id. */
  function Found(roomId: Outcome<string>): (b: bool)
    ensures b ==> roomId.Returned? && roomId.result.Some? && |roomId.result.value| > 0
    ensures roomId == Returned(None) || roomId == Returned(Some("")) ==> !b
    ensures roomId.Raised? ==> !b
    ensures roomId.Returned? && roomId.result.Some? && roomId.result.value != "" ==> b
  {
    roomId.Returned? && roomId.result.Some? && roomId.result.value != ""
  }

  /** The calls one space adds to the set-up, given what its lookup and its creation handed back. */
  function SpaceOps(token: string, name: string, roomId: Outcome<string>, created: Outcome<Webhook>): seq<Op>
  {
    [GetRoomIdOp(token, name, roomId)]
      + (if Found(roomId) then [ConfigureWebhookOp(token, roomId.result.value, created)] else [])
  }

  /** The exception one space's set-up lets escape, if any. */
  function SpaceFailure(roomId: Outcome<string>, created: Outcome<Webhook>): Option<Failure>
  {
    if roomId.Raised? then Some(roomId.failure)
    else if Found(roomId) && created.Raised? then Some(created.failure)
    else None
  }

  /** The calls subscribe() makes for the spaces, given what each lookup and creation handed back. */
  function SetupOps(token: string, spaces: seq<Space>, roomIds: seq<Outcome<string>>,
                    creations: seq<Outcome<Webhook>>): seq<Op>
    requires |spaces| == |roomIds| == |creations|
  {
    if spaces == [] then []
    else
      var n := |spaces| - 1;
      SetupOps(token, spaces[..n], roomIds[..n], creations[..n])
        + SpaceOps(token, spaces[n].name, roomIds[n], creations[n])
  }

  /** No space's set-up raised. */
  predicate Succeeded(roomIds: seq<Outcome<string>>, creations: seq<Outcome<Webhook>>)
    requires |roomIds| == |creations|
  {
    forall i :: 0 <= i < |roomIds| ==> SpaceFailure(roomIds[i], creations[i]).None?
  }

  /**
   * How far the set-up loop over `count` spaces got: it handles the spaces in
   * order and stops at the first one whose lookup or creation raises, with
   * that exception; otherwise it handles them all.
   */
  predicate SetupRan(count: nat, roomIds: seq<Outcome<string>>, creations: seq<Outcome<Webhook>>,
                     failure: Option<Failure>)
  {
    |roomIds| == |creations| <= count &&
    (failure.None? ==> |roomIds| == count && Succeeded(roomIds, creations)) &&
    (failure.Some? ==>
      var n := |roomIds| - 1;
      n >= 0 && Succeeded(roomIds[..n], creations[..n]) && failure == SpaceFailure(roomIds[n], creations[n]))
  }

  /** The names get_room_id was asked for, in order. */
  function Targets(ops: seq<Op>): seq<string>
  {
    if ops == [] then []
    else
      var last := ops[|ops| - 1];
      Targets(ops[..|ops| - 1]) + (if last.GetRoomIdOp? then [last.target] else [])
  }

  /** The room ids configure_webhook was called with, in order. */
  function Configured(ops: seq<Op>): seq<string>
  {
    if ops == [] then []
    else
      var last := ops[|ops| - 1];
      Configured(ops[..|ops| - 1]) + (if last.ConfigureWebhookOp? then [last.roomId] else [])
  }

  function Names(spaces: seq<Space>): (names: seq<string>)
    ensures |names| == |spaces|
    ensures forall i :: 0 <= i < |spaces| ==> names[i] == spaces[i].name
  {
    if spaces == [] then [] else Names(spaces[..|spaces| - 1]) + [spaces[|spaces| - 1].name]
  }

  /** The ids of the lookups subscribe() goes on with, in order. */
  function FoundIds(roomIds: seq<Outcome<string>>): seq<string>
  {
    if roomIds == [] then []
    else
      var last := roomIds[|roomIds| - 1];
      FoundIds(roomIds[..|roomIds| - 1]) + (if Found(last) then [last.result.value] else [])
  }

  lemma {:induction false} TargetsAppend(a: seq<Op>, b: seq<Op>)
    ensures Targets(a + b) == Targets(a) + Targets(b)
    decreases |b|
  {
    if b != [] {
      assert (a + b)[..|a + b| - 1] == a + b[..|b| - 1];
      TargetsAppend(a, b[..|b| - 1]);
    } else {
      assert a + b == a;
    }
  }

  lemma {:induction false} ConfiguredAppend(a: seq<Op>, b: seq<Op>)
    ensures Configured(a + b) == Configured(a) + Configured(b)
    decreases |b|
  {
    if b != [] {
      assert (a + b)[..|a + b| - 1] == a + b[..|b| - 1];
      ConfiguredAppend(a, b[..|b| - 1]);
    } else {
      assert a + b == a;
    }
  }

  lemma SpaceCalls(token: string, name: string, roomId: Outcome<string>, created: Outcome<Webhook>)
    ensures Targets(SpaceOps(token, name, roomId, created)) == [name]
    ensures Configured(SpaceOps(token, name, roomId, created)) == if Found(roomId) then [roomId.result.value] else []
  {
    var lookup := [GetRoomIdOp(token, name, roomId)];
    assert lookup[..0] == [];
    if Found(roomId) {
      var configure := [ConfigureWebhookOp(token, roomId.result.value, created)];
      assert configure[..0] == [];
      TargetsAppend(lookup, configure);
      ConfiguredAppend(lookup, configure);
    } else {
      assert lookup + [] == lookup;
    }
  }

  /** subscribe() asks get_room_id once per configured space, in order. */
  lemma {:induction false} SetupTargets(token: string, spaces: seq<Space>, roomIds: seq<Outcome<string>>,
                                        creations: seq<Outcome<Webhook>>)
    requires |spaces| == |roomIds| == |creations|
    ensures Targets(SetupOps(token, spaces, roomIds, creations)) == Names(spaces)
    decreases |spaces|
  {
    if spaces != [] {
      var n := |spaces| - 1;
      SetupTargets(token, spaces[..n], roomIds[..n], creations[..n]);
      TargetsAppend(SetupOps(token, spaces[..n], roomIds[..n], creations[..n]),
                    SpaceOps(token, spaces[n].name, roomIds[n], creations[n]));
      SpaceCalls(token, spaces[n].name, roomIds[n], creations[n]);
    }
  }

  /**
   * subscribe() calls configure_webhook once for each room id found (not None,
   * not empty), in order, and never otherwise.
   */
  lemma {:induction false} SetupCreations(token: string, spaces: seq<Space>, roomIds: seq<Outcome<string>>,
                                          creations: seq<Outcome<Webhook>>)
    requires |spaces| == |roomIds| == |creations|
    ensures Configured(SetupOps(token, spaces, roomIds, creations)) == FoundIds(roomIds)
    decreases |spaces|
  {
    if spaces != [] {
      var n := |spaces| - 1;
      SetupCreations(token, spaces[..n], roomIds[..n], creations[..n]);
      ConfiguredAppend(SetupOps(token, spaces[..n], roomIds[..n], creations[..n]),
                       SpaceOps(token, spaces[n].name, roomIds[n], creations[n]));
      SpaceCalls(token, spaces[n].name, roomIds[n], creations[n]);
    }
  }

  /**
   * One more space extends the set-up calls by its lookup and, if its room was
   * found, its creation; the loop then stops with that space's exception or
   * goes on with every space so far succeeded.
   */
  lemma SetupStep(token: string, spaces: seq<Space>, i: nat, roomIds: seq<Outcome<string>>,
                  creations: seq<Outcome<Webhook>>, roomId: Outcome<string>, created: Outcome<Webhook>)
    requires i < |spaces| && |roomIds| == |creations| == i && Succeeded(roomIds, creations)
    ensures SetupOps(token, spaces[..i + 1], roomIds + [roomId], creations + [created]) ==
      SetupOps(token, spaces[..i], roomIds, creations) + SpaceOps(token, spaces[i].name, roomId, created)
    ensures SpaceFailure(roomId, created).Some? ==>
      SetupRan(|spaces|, roomIds + [roomId], creations + [created], SpaceFailure(roomId, created))
    ensures SpaceFailure(roomId, created).None? ==> Succeeded(roomIds + [roomId], creations + [created])
  {
    assert spaces[..i + 1][..i] == spaces[..i];
    assert (roomIds + [roomId])[..i] == roomIds && (creations + [created])[..i] == creations;
  }

  /** A log extended twice is the first log extended by both additions. */
  lemma LogGrows(log: seq<Op>, first: seq<Op>, middle: seq<Op>, second: seq<Op>, last: seq<Op>)
    requires middle == log + first && last == middle + second
    ensures last == log + (first + second)
  {
  }

  /**
   * A handler that had logged `first` since `log` and then `second` logged
   * `first + second`, and with the whole log replayed, those calls were
   * answered as the provider answers them from the requests `sent` on.
   */
  lemma Resumed(webex: Webex, log: seq<Op>, sent: seq<Request>, first: seq<Op>, middle: seq<Op>, second: seq<Op>)
    requires Replays(webex.provider.answer, webex.RefreshRequest(), webex.config, webex.origin, log, sent)
    requires webex.Replayed() && middle == log + first && webex.invoked == middle + second
    ensures webex.invoked == log + (first + second) && webex.Answers(sent, first + second)
  {
    LogGrows(log, first, middle, second, webex.invoked);
    webex.ReplayedSince(log, sent, first + second);
  }

  /** Webhooks whose filter has a room id after a `=`. */
  predicate Addressed(ws: seq<Webhook>)
  {
    forall i :: 0 <= i < |ws| ==> FilterRoomId(ws[i].filter).Some?
  }

  /** The room_details calls of the listing loop, one per kept webhook, with the rooms they returned. */
  function DetailOps(token: string, ws: seq<Webhook>, rooms: seq<Room>): seq<Op>
    requires |ws| == |rooms| && Addressed(ws)
  {
    if ws == [] then []
    else
      var n := |ws| - 1;
      DetailOps(token, ws[..n], rooms[..n])
        + [RoomDetailsOp(token, FilterRoomId(ws[n].filter).value, Returned(Some(rooms[n])))]
  }

  /** Each kept webhook paired with the title of its room. */
  function Enrich(ws: seq<Webhook>, rooms: seq<Room>): (r: seq<Listed>)
    requires |ws| == |rooms|
    ensures |r| == |ws|
    ensures forall i :: 0 <= i < |ws| ==> r[i] == Listed(ws[i], rooms[i].title)
  {
    if ws == [] then []
    else
      var n := |ws| - 1;
      Enrich(ws[..n], rooms[..n]) + [Listed(ws[n], rooms[n].title)]
  }

  /** The call looking up a kept webhook's room: none when its filter has no `=`. */
  function LookupOps(token: string, filter: string, details: Outcome<Room>): seq<Op>
  {
    match FilterRoomId(filter)
    case None => []
    case Some(roomId) => [RoomDetailsOp(token, roomId, details)]
  }

  /** What `room_details(..., w['filter'].split('=')[1])['title']` raises, given what the lookup handed back. */
  function LookupCrash(filter: string, details: Outcome<Room>): (c: Option<Crash>)
    ensures c.None? <==> FilterRoomId(filter).Some? && details.Returned? && details.result.Some?
    ensures FilterRoomId(filter).None? ==> c == Some(FilterWithoutId)
    ensures FilterRoomId(filter).Some? && details.Raised? ==> c == Some(ApiRaised(details.failure))
    ensures FilterRoomId(filter).Some? && details == Returned(None) ==> c == Some(RoomNotFound)
  {
    if FilterRoomId(filter).None? then Some(FilterWithoutId)
    else
      match details
      case Raised(f) => Some(ApiRaised(f))
      case Returned(None) => Some(RoomNotFound)
      case Returned(Some(_)) => None
  }

  /**
   * The listing loop's state: the webhooks kept so far, the rooms looked up
   * for them, the rows built, and the calls logged since `before`.
   */
  ghost predicate Shown(token: string, ours: seq<Webhook>, rooms: seq<Room>, rows: seq<Listed>,
                        before: seq<Op>, after: seq<Op>)
  {
    |rooms| == |ours| && Addressed(ours) &&
    after == before + DetailOps(token, ours, rooms) && rows == Enrich(ours, rooms)
  }

  /**
   * What the listing loop over `ws` did: either every kept webhook's room was
   * found and the page lists them all, or the loop stopped at the first kept
   * webhook (the one after those in `rooms`) whose lookup raised.
   */
  ghost predicate Described(token: string, ws: seq<Webhook>, out: SubscribeOutcome, rooms: seq<Room>,
                            last: Outcome<Room>, before: seq<Op>, after: seq<Op>)
  {
    var ours := Ours(ws);
    match out
    case Granted(rows) => Shown(token, ours, rooms, rows, before, after)
    case SubscribeFailed(crash) =>
      var n := |rooms|;
      n < |ours| && Addressed(ours[..n]) && LookupCrash(ours[n].filter, last) == Some(crash) &&
      after == before + DetailOps(token, ours[..n], rooms) + LookupOps(token, ours[n].filter, last)
    case NothingListed => false
  }

  /** The calls a listing loop described by `Described` logged. */
  lemma DescribedCalls(token: string, ws: seq<Webhook>, out: SubscribeOutcome, rooms: seq<Room>,
                       last: Outcome<Room>, before: seq<Op>, after: seq<Op>) returns (calls: seq<Op>)
    requires Described(token, ws, out, rooms, last, before, after)
    ensures after == before + calls
  {
    var ours := Ours(ws);
    if out.Granted? {
      calls := DetailOps(token, ours, rooms);
    } else {
      calls := DetailOps(token, ours[..|rooms|], rooms) + LookupOps(token, ours[|rooms|].filter, last);
    }
  }

  /**
   * What subscribe() does after the set-up: one list call, then None for a
   * failed or empty listing, or the listing loop.
   */
  ghost predicate Listing(token: string, listed: Outcome<seq<Webhook>>, out: SubscribeOutcome, rooms: seq<Room>,
                          last: Outcome<Room>, before: seq<Op>, after: seq<Op>)
  {
    var base := before + [ListWebhooksOp(token, listed)];
    match listed
    case Raised(f) => out == SubscribeFailed(ApiRaised(f)) && after == base
    case Returned(None) => out == NothingListed && after == base
    case Returned(Some(ws)) =>
      if ws == [] then out == NothingListed && after == base
      else Described(token, ws, out, rooms, last, base, after)
  }

  /** One more kept webhook adds one room lookup to the calls and one row to the page. */
  lemma ExtendListing(token: string, ours: seq<Webhook>, rooms: seq<Room>, rows: seq<Listed>,
                      before: seq<Op>, middle: seq<Op>, w: Webhook, room: Room, after: seq<Op>)
    requires Shown(token, ours, rooms, rows, before, middle) && FilterRoomId(w.filter).Some?
    requires after == middle + [RoomDetailsOp(token, FilterRoomId(w.filter).value, Returned(Some(room)))]
    ensures Shown(token, ours + [w], rooms + [room], rows + [Listed(w, room.title)], before, after)
  {
    assert (ours + [w])[..|ours|] == ours && (rooms + [room])[..|rooms|] == rooms;
  }

  /** The webhooks kept from a prefix of the listing are a prefix of those kept from all of it. */
  lemma {:induction false} OursPrefix(ws: seq<Webhook>, j: nat)
    requires j < |ws| && ws[j].name == WEBHOOK_NAME
    ensures |Ours(ws[..j])| < |Ours(ws)|
    ensures Ours(ws)[..|Ours(ws[..j])|] == Ours(ws[..j]) && Ours(ws)[|Ours(ws[..j])|] == ws[j]
  {
    assert ws == ws[..j + 1] + ws[j + 1..];
    assert ws[..j + 1][..j] == ws[..j];
    OursAppend(ws[..j + 1], ws[j + 1..]);
  }

  /** Reading one more listed webhook keeps it exactly when it bears the application's name. */
  lemma OursStep(ws: seq<Webhook>, j: nat)
    requires j < |ws|
    ensures Ours(ws[..j + 1]) == Ours(ws[..j]) + (if ws[j].name == WEBHOOK_NAME then [ws[j]] else [])
  {
    assert ws[..j + 1][..j] == ws[..j];
  }

  /** A lookup that raises for the next kept webhook ends the listing loop with that exception. */
  lemma StopListing(token: string, ws: seq<Webhook>, j: nat, rooms: seq<Room>, rows: seq<Listed>,
                    before: seq<Op>, middle: seq<Op>, last: Outcome<Room>, crash: Crash, after: seq<Op>)
    requires j < |ws| && ws[j].name == WEBHOOK_NAME
    requires Shown(token, Ours(ws[..j]), rooms, rows, before, middle)
    requires LookupCrash(ws[j].filter, last) == Some(crash)
    requires after == middle + LookupOps(token, ws[j].filter, last)
    ensures Described(token, ws, SubscribeFailed(crash), rooms, last, before, after)
  {
    OursPrefix(ws, j);
  }

  /** A listing loop that got through every webhook shows all the kept ones. */
  lemma FinishListing(token: string, ws: seq<Webhook>, j: nat, rooms: seq<Room>, rows: seq<Listed>,
                      before: seq<Op>, after: seq<Op>)
    requires j == |ws| && Shown(token, Ours(ws[..j]), rooms, rows, before, after)
    ensures Described(token, ws, Granted(rows), rooms, Returned(None), before, after)
  {
    assert ws[..j] == ws;
  }

  /* ---------------------------------------------------------------------- */
  /* Webhook delivery                                                        */
  /* ---------------------------------------------------------------------- */

  /** The branch webhook() takes once it has the room and the message. */
  function Delivery(spaces: seq<Space>, title: string, message: Message): (out: WebhookOutcome)
    ensures out == WebhookFailed(UnknownSpace) <==> SpaceIndex(spaces, title).None?
    ensures out.Forwarded? <==>
      SpaceIndex(spaces, title).Some? &&
      (spaces[SpaceIndex(spaces, title).value].recipients == [] || Composable(message))
    ensures out.Forwarded? || out == WebhookFailed(UnknownSpace) || out == WebhookFailed(UnsendableMessage)
  {
    match SpaceIndex(spaces, title)
    case None => WebhookFailed(UnknownSpace)
    case Some(k) =>
      if spaces[k].recipients == [] || Composable(message) then Forwarded else WebhookFailed(UnsendableMessage)
  }

  /** The emails a forwarded message produces: one per recipient of the matching space, in order. */
  function Mailing(spaces: seq<Space>, title: string, sender: string, message: Message): (es: seq<Email>)
    requires Delivery(spaces, title, message).Forwarded?
    ensures var recipients := spaces[SpaceIndex(spaces, title).value].recipients;
      |es| == |recipients| &&
      forall i :: 0 <= i < |es| ==> Compose(title, recipients[i], sender, message) == Some(es[i])
  {
    var recipients := spaces[SpaceIndex(spaces, title).value].recipients;
    if recipients == [] then [] else Fanout(title, recipients, sender, message)
  }

  /** The calls webhook() makes once the signature matches: the room lookup, and the message lookup when a room came back. */
  function WebhookOps(token: string, event: Inbound, found: Outcome<Room>, fetched: Outcome<Message>): seq<Op>
  {
    [RoomDetailsOp(token, event.roomId, found)] +
      if found.Returned? && found.result.Some? then [MessageDetailsOp(token, event.messageId, fetched)] else []
  }

  /**
   * What webhook() does once the signature matches: the room lookup, then the
   * message lookup, then the delivery, each stopping the handler when it
   * yields None or raises. `mailed` is the outbox before and after.
   */
  ghost predicate Dispatched(token: string, config: Config, event: Inbound, found: Outcome<Room>,
                             fetched: Outcome<Message>, out: WebhookOutcome, before: seq<Op>, after: seq<Op>,
                             mailedBefore: seq<Email>, mailedAfter: seq<Email>)
  {
    var lookup := RoomDetailsOp(token, event.roomId, found);
    (!out.Forwarded? ==> mailedAfter == mailedBefore) &&
    match found
    case Raised(f) => out == WebhookFailed(ApiRaised(f)) && after == before + [lookup]
    case Returned(None) => out == Ignored && after == before + [lookup]
    case Returned(Some(room)) =>
      after == before + [lookup, MessageDetailsOp(token, event.messageId, fetched)] &&
      match fetched
      case Raised(f) => out == WebhookFailed(ApiRaised(f))
      case Returned(None) => out == Ignored
      case Returned(Some(message)) =>
        out == Delivery(config.spaces, room.title, message) &&
        (out.Forwarded? ==>
          mailedAfter == mailedBefore + Mailing(config.spaces, room.title, config.emailUsername, message))
  }

  /* ---------------------------------------------------------------------- */
  /* The OAuth callback                                                      */
  /* ---------------------------------------------------------------------- */

  datatype OAuthOutcome =
    | RedirectToSubscribe           // tokens stored
    | LandingPage                   // state mismatch: index.html again, no exchange
    | OAuthFailed(crash: Crash)

  /**
   * What get_tokens leaves in `settings` after the grant response `body`:
   * both tokens when both are present (`stored`), only the access token when
   * the refresh token is missing, nothing when the access token is missing.
   */
  predicate TokensTaken(body: Body, stored: bool, accessBefore: string, refreshBefore: string,
                        accessAfter: string, refreshAfter: string)
  {
    var granted := body.TokenGrant? && body.accessToken.Some?;
    (stored <==> granted && body.refreshToken.Some?) &&
    accessAfter == (if granted then body.accessToken.value else accessBefore) &&
    refreshAfter == (if stored then body.refreshToken.value else refreshBefore)
  }

  /* ---------------------------------------------------------------------- */
  /* The application                                                         */
  /* ---------------------------------------------------------------------- */

  /** The Flask application with the module-level `state` and the collaborators it uses. */
  class Server {
    /** The state parameter issued by the last landing-page render ('' before the first). */
    var state: string
    const store: Store
    const webex: Webex
    const mailer: Mailer
    /** HMAC-SHA1 (RFC 2104) of (key, message) as a hex digest; left uninterpreted. */
    const hmac: (string, string) -> string

    /** The handlers and the wrappers read one and the same `settings` module. */
    constructor (store: Store, webex: Webex, mailer: Mailer, hmac: (string, string) -> string)
      requires webex.config == store.config
      ensures this.store == store && this.webex == webex && this.mailer == mailer && this.hmac == hmac
      ensures webex.config == store.config
      ensures state == ""
    {
      this.store := store;
      this.webex := webex;
      this.mailer := mailer;
      this.hmac := hmac;
      state := "";
    }

    /** main_page: issue a fresh state parameter and render the consent page with it. */
    method MainPage() returns (shown: string)
      modifies this`state
      ensures shown == state && IsStateParam(state)
      ensures forall i :: 0 <= i < |state| ==> IsAsciiAlnum(state[i])
    {
      state := GenerateStateParam();
      shown := state;
    }

    /** The authorization-code request get_tokens posts; an absent code is sent as the text "None". */
    function CodeRequest(code: Option<string>): (r: Request)
      ensures r.CodeGrant? && r.clientId == store.config.clientId && r.clientSecret == store.config.secretId
      ensures r.redirectUri == store.config.redirectUri
      ensures code.Some? ==> r.code == code.value
      ensures code.None? ==> r.code == "None"
    {
      CodeGrant(store.config.clientId, store.config.secretId, PyStr(code), store.config.redirectUri)
    }

    /**
     * get_tokens: exchange the code and store the two tokens. The response
     * status is not looked at; a missing `access_token` raises before anything
     * is stored, a missing `refresh_token` raises after the access token is.
     */
    method GetTokens(code: Option<string>) returns (stored: bool)
      requires webex.Replayed()
      modifies store, webex`invoked, webex.provider
      ensures webex.Replayed()
      ensures webex.invoked ==
        old(webex.invoked) + [CodeExchangeOp(CodeRequest(code), webex.provider.answer(old(webex.provider.sent), CodeRequest(code)))]
      ensures webex.provider.sent == old(webex.provider.sent) + [CodeRequest(code)]
      ensures TokensTaken(webex.provider.answer(old(webex.provider.sent), CodeRequest(code)).body, stored,
                          old(store.oauthToken), old(store.refreshToken), store.oauthToken, store.refreshToken)
    {
      var response := webex.Exchange(CodeRequest(code));
      match response.body {
        case TokenGrant(Some(access), refresh) =>
          store.oauthToken := access;
          if refresh.None? {
            stored := false;
            return;
          }
          store.refreshToken := refresh.value;
          stored := true;
        case _ =>
          stored := false;
      }
    }

    /**
     * oauth: the code is exchanged only when the returned state equals the
     * stored one; otherwise the landing page is shown again. The stored state
     * is not reset afterwards.
     */
    method OAuth(returned: Option<string>, code: Option<string>) returns (out: OAuthOutcome)
      requires webex.Replayed()
      modifies store, webex`invoked, webex.provider
      ensures webex.Replayed()
      ensures returned != Some(state) ==>
        out == LandingPage && webex.provider.sent == old(webex.provider.sent) && webex.invoked == old(webex.invoked) &&
        store.oauthToken == old(store.oauthToken) && store.refreshToken == old(store.refreshToken)
      ensures returned == Some(state) ==>
        webex.provider.sent == old(webex.provider.sent) + [CodeRequest(code)] &&
        webex.invoked == old(webex.invoked) +
          [CodeExchangeOp(CodeRequest(code), webex.provider.answer(old(webex.provider.sent), CodeRequest(code)))] &&
        (out.RedirectToSubscribe? || out == OAuthFailed(GrantWithoutTokens)) &&
        TokensTaken(webex.provider.answer(old(webex.provider.sent), CodeRequest(code)).body, out.RedirectToSubscribe?,
                    old(store.oauthToken), old(store.refreshToken), store.oauthToken, store.refreshToken)
    {
      if returned == Some(state) {
        var stored := GetTokens(code);
        out := if stored then RedirectToSubscribe else OAuthFailed(GrantWithoutTokens);
      } else {
        out := LandingPage;
      }
    }

    /**
     * send_email: format the message and make one delivery attempt. Formatting
     * raises before sending; an SMTP failure is caught, so the attempt counts.
     */
    method SendEmail(roomName: string, recipient: string, message: Message) returns (sent: bool)
      modifies mailer
      ensures sent <==> Composable(message)
      ensures sent ==> (mailer.outbox ==
        old(mailer.outbox) + [Compose(roomName, recipient, store.config.emailUsername, message).value])
      ensures !sent ==> mailer.outbox == old(mailer.outbox)
    {
      var email := Compose(roomName, recipient, store.config.emailUsername, message);
      if email.None? {
        sent := false;
        return;
      }
      mailer.Deliver(email.value);
      sent := true;
    }

    /**
     * The recipient loop of webhook(): one send_email per recipient, in order.
     * Formatting fails for every recipient or for none, so a failure can only
     * come from the first call, before anything is delivered.
     */
    method Forward(title: string, recipients: seq<string>, message: Message) returns (ok: bool)
      modifies mailer
      ensures ok <==> recipients == [] || Composable(message)
      ensures ok && recipients != [] ==>
        mailer.outbox == old(mailer.outbox) + Fanout(title, recipients, store.config.emailUsername, message)
      ensures !ok || recipients == [] ==> mailer.outbox == old(mailer.outbox)
    {
      var i := 0;
      while i < |recipients|
        modifies mailer
        invariant 0 <= i <= |recipients|
        invariant i > 0 ==> Composable(message)
        invariant i > 0 ==> (mailer.outbox ==
          old(mailer.outbox) + Fanout(title, recipients[..i], store.config.emailUsername, message))
        invariant i == 0 ==> mailer.outbox == old(mailer.outbox)
      {
        var sent := SendEmail(title, recipients[i], message);
        if !sent {
          ok := false;
          return;
        }
        assert recipients[..i + 1][..i] == recipients[..i];
        i := i + 1;
      }
      if recipients != [] {
        assert recipients[..|recipients|] == recipients;
      }
      ok := true;
    }

    /**
     * The end of webhook(): find the space titled like the room and mail the
     * message to each of its recipients.
     */
    method Deliver(title: string, message: Message) returns (out: WebhookOutcome)
      modifies mailer
      ensures out == Delivery(store.config.spaces, title, message)
      ensures out.Forwarded? ==>
        mailer.outbox == old(mailer.outbox) + Mailing(store.config.spaces, title, store.config.emailUsername, message)
      ensures !out.Forwarded? ==> mailer.outbox == old(mailer.outbox)
    {
      var k := FindSpace(store.config.spaces, title);
      if k.None? {
        out := WebhookFailed(UnknownSpace);
        return;
      }
      var ok := Forward(title, store.config.spaces[k.value].recipients, message);
      out := if ok then Forwarded else WebhookFailed(UnsendableMessage);
    }

    /**
     * webhook: check the signature, look up the room and the message, find the
     * space titled like the room and mail the message to each of its recipients.
     * Both lookups use the stored access token, whatever a refresh did.
     */
    method Webhook(event: Inbound) returns (out: WebhookOutcome, ghost found: Outcome<Room>,
                                            ghost fetched: Outcome<Message>)
      requires webex.Replayed()
      modifies webex`invoked, webex.provider, webex.env`oauthToken, mailer
      ensures webex.Replayed()
      ensures out.Rejected? <==> event.signature != Some(hmac(store.config.secret, event.raw))
      ensures out.Rejected? ==>
        webex.invoked == old(webex.invoked) && webex.provider.sent == old(webex.provider.sent) &&
        mailer.outbox == old(mailer.outbox)
      ensures !out.Rejected? ==>
        Dispatched(store.oauthToken, store.config, event, found, fetched, out, old(webex.invoked), webex.invoked,
                   old(mailer.outbox), mailer.outbox)
      ensures !out.Rejected? ==>
        webex.invoked == old(webex.invoked) + WebhookOps(store.oauthToken, event, found, fetched) &&
        webex.Answers(old(webex.provider.sent), WebhookOps(store.oauthToken, event, found, fetched))
    {
      found, fetched := Returned(None), Returned(None);
      if event.signature != Some(hmac(store.config.secret, event.raw)) {
        out := Rejected;
        return;
      }
      var roomOut := webex.RoomDetails(store.oauthToken, event.roomId);
      found := roomOut;
      if roomOut.Raised? || roomOut.result.None? {
        out := if roomOut.Raised? then WebhookFailed(ApiRaised(roomOut.failure)) else Ignored;
        webex.ReplayedSince(old(webex.invoked), old(webex.provider.sent), WebhookOps(store.oauthToken, event, found, fetched));
        return;
      }
      var room := roomOut.result.value;
      var messageOut := webex.MessageDetails(store.oauthToken, event.messageId);
      fetched := messageOut;
      webex.ReplayedSince(old(webex.invoked), old(webex.provider.sent), WebhookOps(store.oauthToken, event, found, fetched));
      if messageOut.Raised? {
        out := WebhookFailed(ApiRaised(messageOut.failure));
        return;
      }
      if messageOut.result.None? {
        out := Ignored;
        return;
      }
      out := Deliver(room.title, messageOut.result.value);
    }

    /**
     * One space of the set-up loop: look its room up by name and, unless
     * nothing usable came back, create the webhook for that room.
     */
    method Prepare(token: string, name: string) returns (failure: Option<Failure>, ghost roomId: Outcome<string>,
                                                         ghost created: Outcome<Webhook>)
      requires webex.Replayed()
      modifies webex`invoked, webex.provider, webex.env`oauthToken
      ensures webex.Replayed()
      ensures webex.invoked == old(webex.invoked) + SpaceOps(token, name, roomId, created)
      ensures webex.Answers(old(webex.provider.sent), SpaceOps(token, name, roomId, created))
      ensures failure == SpaceFailure(roomId, created)
    {
      var lookup := webex.GetRoomId(token, name);
      roomId, created := lookup, Returned(None);
      if lookup.Raised? {
        failure := Some(lookup.failure);
      } else if lookup.result.Some? && lookup.result.value != "" {
        var made := webex.ConfigureWebhook(token, lookup.result.value);
        created := made;
        failure := if made.Raised? then Some(made.failure) else None;
      } else {
        failure := None;
      }
      webex.ReplayedSince(old(webex.invoked), old(webex.provider.sent), SpaceOps(token, name, roomId, created));
    }

    /**
     * The first loop of subscribe(): look every configured space up by name and
     * create a webhook for each room found, stopping at the first exception.
     */
    method SetUp(token: string) returns (failure: Option<Failure>, ghost roomIds: seq<Outcome<string>>,
                                         ghost creations: seq<Outcome<Webhook>>)
      requires webex.Replayed()
      modifies webex`invoked, webex.provider, webex.env`oauthToken
      ensures webex.Replayed()
      ensures SetupRan(|store.config.spaces|, roomIds, creations, failure)
      ensures webex.invoked ==
        old(webex.invoked) + SetupOps(token, store.config.spaces[..|roomIds|], roomIds, creations)
      ensures webex.Answers(old(webex.provider.sent), SetupOps(token, store.config.spaces[..|roomIds|], roomIds, creations))
    {
      var spaces := store.config.spaces;
      roomIds, creations := [], [];
      var i := 0;
      while i < |spaces|
        invariant 0 <= i <= |spaces| && |roomIds| == |creations| == i
        invariant Succeeded(roomIds, creations)
        invariant webex.invoked == old(webex.invoked) + SetupOps(token, spaces[..i], roomIds, creations)
        invariant webex.Replayed()
      {
        ghost var middle := webex.invoked;
        var raised, roomId, created := Prepare(token, spaces[i].name);
        SetupStep(token, spaces, i, roomIds, creations, roomId, created);
        LogGrows(old(webex.invoked), SetupOps(token, spaces[..i], roomIds, creations), middle,
                 SpaceOps(token, spaces[i].name, roomId, created), webex.invoked);
        roomIds, creations := roomIds + [roomId], creations + [created];
        if raised.Some? {
          failure := raised;
          webex.ReplayedSince(old(webex.invoked), old(webex.provider.sent),
                              SetupOps(token, spaces[..i + 1], roomIds, creations));
          return;
        }
        i := i + 1;
      }
      failure := None;
      webex.ReplayedSince(old(webex.invoked), old(webex.provider.sent), SetupOps(token, spaces[..i], roomIds, creations));
    }

    /**
     * The room a listed webhook watches: the id after the `=` of its filter,
     * then room_details on it; a missing `=` or room raises.
     */
    method RoomOf(token: string, filter: string) returns (crash: Option<Crash>, room: Room,
                                                          ghost details: Outcome<Room>)
      requires webex.Replayed()
      modifies webex`invoked, webex.provider, webex.env`oauthToken
      ensures webex.Replayed()
      ensures webex.invoked == old(webex.invoked) + LookupOps(token, filter, details)
      ensures webex.Answers(old(webex.provider.sent), LookupOps(token, filter, details))
      ensures crash == LookupCrash(filter, details)
      ensures crash.None? ==> details == Returned(Some(room))
    {
      room, details := Room("", ""), Returned(None);
      var roomId := FilterRoomId(filter);
      if roomId.None? {
        crash := Some(FilterWithoutId);
      } else {
        var answer := webex.RoomDetails(token, roomId.value);
        details := answer;
        if answer.Raised? {
          crash := Some(ApiRaised(answer.failure));
        } else if answer.result.None? {
          crash := Some(RoomNotFound);
        } else {
          crash := None;
          room := answer.result.value;
        }
      }
      webex.ReplayedSince(old(webex.invoked), old(webex.provider.sent), LookupOps(token, filter, details));
    }

    /**
     * The second loop of subscribe(): keep the webhooks named like this
     * application's and look up the title of each one's room.
     */
    method Describe(token: string, all: seq<Webhook>) returns (out: SubscribeOutcome, ghost rooms: seq<Room>,
                                                               ghost last: Outcome<Room>)
      requires webex.Replayed()
      modifies webex`invoked, webex.provider, webex.env`oauthToken
      ensures webex.Replayed()
      ensures Described(token, all, out, rooms, last, old(webex.invoked), webex.invoked)
    {
      rooms, last := [], Returned(None);
      ghost var ours: seq<Webhook> := [];
      var kept: seq<Listed> := [];
      var j := 0;
      while j < |all|
        invariant 0 <= j <= |all| && ours == Ours(all[..j])
        invariant Shown(token, ours, rooms, kept, old(webex.invoked), webex.invoked)
        invariant webex.Replayed()
      {
        var w := all[j];
        OursStep(all, j);
        if w.name == WEBHOOK_NAME {
          ghost var middle := webex.invoked;
          var crash, room, details := RoomOf(token, w.filter);
          if crash.Some? {
            out, last := SubscribeFailed(crash.value), details;
            StopListing(token, all, j, rooms, kept, old(webex.invoked), middle, last, crash.value, webex.invoked);
            return;
          }
          ExtendListing(token, ours, rooms, kept, old(webex.invoked), middle, w, room, webex.invoked);
          kept := kept + [Listed(w, room.title)];
          rooms := rooms + [room];
          ours := ours + [w];
        }
        j := j + 1;
      }
      FinishListing(token, all, j, rooms, kept, old(webex.invoked), webex.invoked);
      out := Granted(kept);
    }

    /**
     * subscribe: set the webhooks up, then list them; an empty or failed
     * listing makes the view return None.
     */
    method Subscribe() returns (out: SubscribeOutcome, ghost setup: Option<Failure>,
                                ghost roomIds: seq<Outcome<string>>, ghost creations: seq<Outcome<Webhook>>,
                                ghost listed: Outcome<seq<Webhook>>, ghost rooms: seq<Room>, ghost last: Outcome<Room>,
                                ghost calls: seq<Op>)
      requires webex.Replayed()
      modifies webex`invoked, webex.provider, webex.env`oauthToken
      ensures webex.Replayed()
      ensures SetupRan(|store.config.spaces|, roomIds, creations, setup)
      ensures setup.Some? ==>
        out == SubscribeFailed(ApiRaised(setup.value)) &&
        webex.invoked == old(webex.invoked) + SetupOps(store.oauthToken, store.config.spaces[..|roomIds|], roomIds, creations)
      ensures setup.None? ==>
        Listing(store.oauthToken, listed, out, rooms, last,
                old(webex.invoked) + SetupOps(store.oauthToken, store.config.spaces[..|roomIds|], roomIds, creations),
                webex.invoked)
      ensures webex.invoked == old(webex.invoked) + calls && webex.Answers(old(webex.provider.sent), calls)
    {
      listed, rooms, last := Returned(None), [], Returned(None);
      var failure;
      failure, roomIds, creations := SetUp(store.oauthToken);
      setup := failure;
      calls := SetupOps(store.oauthToken, store.config.spaces[..|roomIds|], roomIds, creations);
      if failure.Some? {
        out := SubscribeFailed(ApiRaised(failure.value));
        return;
      }
      ghost var middle := webex.invoked;
      var listOut := webex.ListWebhooks(store.oauthToken);
      listed := listOut;
      LogGrows(old(webex.invoked), calls, middle, [ListWebhooksOp(store.oauthToken, listed)], webex.invoked);
      calls := calls + [ListWebhooksOp(store.oauthToken, listed)];
      if listOut.Raised? || listOut.result.None? || listOut.result.value == [] {
        out := if listOut.Raised? then SubscribeFailed(ApiRaised(listOut.failure)) else NothingListed;
        webex.ReplayedSince(old(webex.invoked), old(webex.provider.sent), calls);
        return;
      }
      middle := webex.invoked;
      out, rooms, last := Describe(store.oauthToken, listOut.result.value);
      ghost var described := DescribedCalls(store.oauthToken, listOut.result.value, out, rooms, last, middle, webex.invoked);
      Resumed(webex, old(webex.invoked), old(webex.provider.sent), calls, middle, described);
      calls := calls + described;
    }
  }
}
