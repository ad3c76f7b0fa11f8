/**
 * The webhook endpoint of `main.py`: it filters the request, takes the first
 * whitespace-separated word of the body, lower-cases it, and runs the handler the command
 * table of `commands.py` gives for that word. The handlers modelled in this project are run;
 * the others are only recorded as dispatched.
 */
module Endpoint {
  import opened Wrappers
  import opened Text
  import opened Db
  import opened AdminCommands
  import opened MainCommands

  /** The handlers of the command table, one per key. */
  datatype Command =
    | Test | Sorry | RoomInfo | Say | Weather | WhoAmI | Echo | Timer | TimeReport | Delete | Quote
    | Omikuji | RankingQuery | Recount | News | Info | Wiki | Coin | Translate | Reminder | Log | Stats

  /** The key each handler is registered under. */
  function KeyOf(c: Command): string {
    match c
    case Test => "/test"
    case Sorry => "/sorry"
    case RoomInfo => "/roominfo"
    case Say => "/say"
    case Weather => "/weather"
    case WhoAmI => "/whoami"
    case Echo => "/echo"
    case Timer => "/timer"
    case TimeReport => "/時報"
    case Delete => "/削除"
    case Quote => "/quote"
    case Omikuji => "おみくじ"
    case RankingQuery => "/ranking"
    case Recount => "/recount"
    case News => "/news"
    case Info => "/info"
    case Wiki => "/wiki"
    case Coin => "/coin"
    case Translate => "/translate"
    case Reminder => "/reminder"
    case Log => "/log"
    case Stats => "/stats"
  }

  /** `COMMANDS.get(key)`. */
  function CommandOf(key: string): (r: Option<Command>)
    ensures r.Some? ==> KeyOf(r.value) == key
  {
    if key == "/test" then Some(Test)
    else if key == "/sorry" then Some(Sorry)
    else if key == "/roominfo" then Some(RoomInfo)
    else if key == "/say" then Some(Say)
    else if key == "/weather" then Some(Weather)
    else if key == "/whoami" then Some(WhoAmI)
    else if key == "/echo" then Some(Echo)
    else if key == "/timer" then Some(Timer)
    else if key == "/時報" then Some(TimeReport)
    else if key == "/削除" then Some(Delete)
    else if key == "/quote" then Some(Quote)
    else if key == "おみくじ" then Some(Omikuji)
    else if key == "/ranking" then Some(RankingQuery)
    else if key == "/recount" then Some(Recount)
    else if key == "/news" then Some(News)
    else if key == "/info" then Some(Info)
    else if key == "/wiki" then Some(Wiki)
    else if key == "/coin" then Some(Coin)
    else if key == "/translate" then Some(Translate)
    else if key == "/reminder" then Some(Reminder)
    else if key == "/log" then Some(Log)
    else if key == "/stats" then Some(Stats)
    else None
  }

  lemma RoundTripPart1(c: Command)
    requires c in {Test, Sorry, RoomInfo, Say, Weather, WhoAmI}
    ensures CommandOf(KeyOf(c)) == Some(c)
  {
  }

  lemma RoundTripPart2(c: Command)
    requires c in {Echo, Timer, TimeReport, Delete, Quote, Omikuji}
    ensures CommandOf(KeyOf(c)) == Some(c)
  {
  }

  lemma RoundTripPart3(c: Command)
    requires c in {RankingQuery, Recount, News, Info, Wiki}
    ensures CommandOf(KeyOf(c)) == Some(c)
  {
  }

  lemma RoundTripPart4(c: Command)
    requires c in {Coin, Translate, Reminder, Log, Stats}
    ensures CommandOf(KeyOf(c)) == Some(c)
  {
  }

  /** Looking up a handler's key finds that handler; so no two handlers share a key. */
  lemma TableRoundTrip(c: Command)
    ensures CommandOf(KeyOf(c)) == Some(c)
  {
    match c {
      case Test => RoundTripPart1(c);
      case Sorry => RoundTripPart1(c);
      case RoomInfo => RoundTripPart1(c);
      case Say => RoundTripPart1(c);
      case Weather => RoundTripPart1(c);
      case WhoAmI => RoundTripPart1(c);
      case Echo => RoundTripPart2(c);
      case Timer => RoundTripPart2(c);
      case TimeReport => RoundTripPart2(c);
      case Delete => RoundTripPart2(c);
      case Quote => RoundTripPart2(c);
      case Omikuji => RoundTripPart2(c);
      case RankingQuery => RoundTripPart3(c);
      case Recount => RoundTripPart3(c);
      case News => RoundTripPart3(c);
      case Info => RoundTripPart3(c);
      case Wiki => RoundTripPart3(c);
      case Coin => RoundTripPart4(c);
      case Translate => RoundTripPart4(c);
      case Reminder => RoundTripPart4(c);
      case Log => RoundTripPart4(c);
      case Stats => RoundTripPart4(c);
    }
  }

  /** A key finds no handler exactly when no handler is registered under it. */
  lemma CommandOfNone(key: string)
    ensures CommandOf(key).None? <==> forall c :: KeyOf(c) != key
  {
    forall c ensures KeyOf(c) == key ==> CommandOf(key) == Some(c) {
      TableRoundTrip(c);
    }
  }

  /** The first word of `w + rest` is `w` when `w` has no whitespace and `rest` starts with some. */
  lemma FirstWord(w: string, rest: string)
    requires |w| > 0 && NoSpace(w) && (rest == [] || IsSpace(rest[0]))
    ensures Words(w + rest) != [] && Words(w + rest)[0] == w
  {
    var s := w + rest;
    assert !IsSpace(s[0]);
    assert SkipSpaces(s, 0) == 0;
    var e := TokenEnd(s, 0);
    if rest != [] {
      assert s[|w|] == rest[0];
    }
    forall k | 0 <= k < |w| ensures !IsSpace(s[k]) {
      assert s[k] == w[k];
    }
    assert e == |w|;
    assert s[0..e] == w;
  }

  /** The request's JSON: `None` when it is missing or empty. Ids are taken to be present. */
  datatype Payload = Payload(eventType: Option<string>, messageId: nat, room: nat, account: nat, body: Option<string>)

  /** The status code and the `status` field of the JSON answer. */
  datatype Response = Response(code: nat, status: string)

  /** What the modelled handlers read from the world besides the store: clock, randomness, API answers. */
  datatype World = World(today: Date, pick: nat, fetched: Option<seq<Msg>>,
                         members: Option<seq<Member>>, roomName: Option<Option<string>>)

  /** `message_body.split()[0].lower()`; `None` where that raises (no body, or a blank one). */
  function CommandKey(body: Option<string>): (r: Option<string>)
    ensures r.Some? ==> body.Some? && !IsBlank(body.value) && |r.value| > 0
  {
    if body.None? || IsBlank(body.value) then None else Some(Lower(Words(body.value)[0]))
  }

  /** The handler a request reaches, if any. */
  function Dispatched(data: Option<Payload>): Option<Command> {
    if data.None? || data.value.eventType != Some("message_created") then None
    else match CommandKey(data.value.body)
      case None => None
      case Some(key) => CommandOf(key)
  }

  /** A body whose first word is `w` reaches the handler registered under `w` lower-cased. */
  lemma DispatchOfWord(w: string, rest: string, p: Payload)
    requires |w| > 0 && NoSpace(w) && (rest == [] || IsSpace(rest[0]))
    requires p.eventType == Some("message_created") && p.body == Some(w + rest)
    ensures Dispatched(Some(p)) == CommandOf(Lower(w))
  {
    FirstWord(w, rest);
    assert !IsSpace((w + rest)[0]);
  }

  /** A character a key may hold: the slash, a lower-case ASCII letter, or one above the ideographic space. */
  predicate KeyChar(c: char) {
    c == '/' || 'a' <= c <= 'z' || c > '\U{3000}'
  }

  /** Every key is a non-empty run of key characters. */
  lemma KeyChars(c: Command)
    ensures |KeyOf(c)| > 0 && forall i :: 0 <= i < |KeyOf(c)| ==> KeyChar(KeyOf(c)[i])
  {
  }

  /** A run of key characters holds no whitespace and is its own lower-casing. */
  lemma PlainWord(w: string)
    requires forall i :: 0 <= i < |w| ==> KeyChar(w[i])
    ensures NoSpace(w) && Lower(w) == w
  {
  }

  /** A body that starts with a registered key, then whitespace or nothing, reaches that key's handler. */
  lemma DispatchOfKey(c: Command, rest: string, p: Payload)
    requires rest == [] || IsSpace(rest[0])
    requires p.eventType == Some("message_created") && p.body == Some(KeyOf(c) + rest)
    ensures Dispatched(Some(p)) == Some(c)
  {
    var k := KeyOf(c);
    TableRoundTrip(c);
    KeyChars(c);
    PlainWord(k);
    DispatchOfWord(k, rest, p);
  }

  lemma MixedCaseRanking()
    ensures NoSpace("/Ranking") && Lower("/Ranking") == KeyOf(RankingQuery)
  {
    var w := "/Ranking";
    forall i | 0 <= i < |w| ensures !IsSpace(w[i]) {
    }
    var k := Lower(w);
    forall i | 0 <= i < 8 ensures k[i] == "/ranking"[i] {
    }
  }

  /** The key ignores case: `/Ranking 2025/08/21` reaches the ranking handler. */
  lemma DispatchIgnoresCase(p: Payload)
    requires p.eventType == Some("message_created") && p.body == Some("/Ranking 2025/08/21")
    ensures Dispatched(Some(p)) == Some(RankingQuery)
  {
    var w, rest := "/Ranking", " 2025/08/21";
    assert w + rest == "/Ranking 2025/08/21";
    MixedCaseRanking();
    DispatchOfWord(w, rest, p);
    TableRoundTrip(RankingQuery);
  }

  /**
   * Runs the handler `c` on the request's room, sender and body. `raised` is true when the
   * handler raised, which only the ranking handler does here.
   */
  method RunCommand(db: Store, chat: Chat, c: Command, p: Payload, body: string, world: World) returns (raised: bool)
    modifies db`viewerList, db`hourlyReportRooms, db`omikujiHistory, db`userMessageCounts, chat
    ensures raised <==>
              c == RankingQuery &&
              RankingRaises(db.connected, db.userMessageCounts, RankingRequestOf(body, p.room, world.today),
                            world.members, world.roomName)
    ensures c !in {Sorry, Say, Echo, Timer, TimeReport, Omikuji, RankingQuery, Recount} ==>
              chat.sent == old(chat.sent) && unchanged(db)
    ensures c == Say ==> chat.sent == old(chat.sent) + [Post(NatToString(p.room), SayReply(body))]
    ensures c == Echo ==> chat.sent == old(chat.sent) + [Post(NatToString(p.room), EchoReply(body))]
    ensures c == Timer ==> TimerEffect(chat, p.room, p.account, body)
    ensures c == Sorry ==> SorryEffect(db, chat, p.room, body)
    ensures c == TimeReport ==> TimeReportEffect(db, chat, p.room, body)
    ensures c == Omikuji ==> OmikujiEffect(db, chat, p.room, p.account, world.today, world.pick)
    ensures c == RankingQuery ==> RankingEffect(db, chat, p.room, body, world.today, world.members, world.roomName)
    ensures c == Recount ==> RecountEffect(db, chat, p.room, body, world.fetched)
    ensures c != Sorry ==> db.viewerList == old(db.viewerList)
    ensures c != TimeReport ==> db.hourlyReportRooms == old(db.hourlyReportRooms)
    ensures c != Omikuji ==> db.omikujiHistory == old(db.omikujiHistory)
    ensures c != Recount ==> db.userMessageCounts == old(db.userMessageCounts)
  {
    raised := false;
    if c in {Say, Echo, Timer} {
      RunChatCommand(chat, c, p, body);
    } else if c in {Sorry, TimeReport, Omikuji, RankingQuery, Recount} {
      raised := RunStoreCommand(db, chat, c, p, body, world);
    }
  }

  /** The handlers that only post: `/say`, `/echo` and `/timer`. */
  method RunChatCommand(chat: Chat, c: Command, p: Payload, body: string)
    requires c in {Say, Echo, Timer}
    modifies chat
    ensures c == Say ==> chat.sent == old(chat.sent) + [Post(NatToString(p.room), SayReply(body))]
    ensures c == Echo ==> chat.sent == old(chat.sent) + [Post(NatToString(p.room), EchoReply(body))]
    ensures c == Timer ==> TimerEffect(chat, p.room, p.account, body)
  {
    if c == Say {
      SayCommand(chat, p.room, body);
    } else if c == Echo {
      EchoCommand(chat, p.room, body);
    } else {
      TimerCommand(chat, p.room, p.account, body);
    }
  }

  /** The handlers that use the store; only the ranking handler can raise. */
  method RunStoreCommand(db: Store, chat: Chat, c: Command, p: Payload, body: string, world: World) returns (raised: bool)
    requires c in {Sorry, TimeReport, Omikuji, RankingQuery, Recount}
    modifies db`viewerList, db`hourlyReportRooms, db`omikujiHistory, db`userMessageCounts, chat
    ensures raised <==>
              c == RankingQuery &&
              RankingRaises(db.connected, db.userMessageCounts, RankingRequestOf(body, p.room, world.today),
                            world.members, world.roomName)
    ensures c == Sorry ==> SorryEffect(db, chat, p.room, body)
    ensures c == TimeReport ==> TimeReportEffect(db, chat, p.room, body)
    ensures c == Omikuji ==> OmikujiEffect(db, chat, p.room, p.account, world.today, world.pick)
    ensures c == RankingQuery ==> RankingEffect(db, chat, p.room, body, world.today, world.members, world.roomName)
    ensures c == Recount ==> RecountEffect(db, chat, p.room, body, world.fetched)
    ensures c != Sorry ==> db.viewerList == old(db.viewerList)
    ensures c != TimeReport ==> db.hourlyReportRooms == old(db.hourlyReportRooms)
    ensures c != Omikuji ==> db.omikujiHistory == old(db.omikujiHistory)
    ensures c != Recount ==> db.userMessageCounts == old(db.userMessageCounts)
  {
    raised := false;
    if c == Sorry {
      SorryCommand(db, chat, p.room, body);
    } else if c == TimeReport {
      TimeReportCommand(db, chat, p.room, body);
    } else if c == Omikuji {
      OmikujiCommand(db, chat, p.room, p.account, world.today, world.pick);
    } else if c == RankingQuery {
      raised := RankingCommand(db, chat, p.room, body, world.today, world.members, world.roomName);
    } else {
      RecountCommand(db, chat, p.room, body, world.fetched);
    }
  }

  /**
   * `event_handler`. No JSON answers 400; another event type answers 200; a body that is
   * missing or blank makes the key extraction raise, answering 500. Otherwise the handler of
   * the key runs, if the table has one, with the effect its own contract states, and the
   * answer is 200, or 500 when the handler raised. `ran` reports which handler was dispatched.
   */
  method EventHandler(db: Store, chat: Chat, data: Option<Payload>, world: World) returns (resp: Response, ran: Option<Command>)
    modifies db`viewerList, db`hourlyReportRooms, db`omikujiHistory, db`userMessageCounts, chat
    ensures ran == Dispatched(data)
    ensures data.None? ==> resp == Response(400, "no data")
    ensures data.Some? && data.value.eventType != Some("message_created") ==>
              resp == Response(200, "not message_created event")
    ensures data.Some? && data.value.eventType == Some("message_created") && CommandKey(data.value.body).None? ==>
              resp == Response(500, "error")
    ensures data.Some? && data.value.eventType == Some("message_created") && CommandKey(data.value.body).Some? ==>
              resp == Response(200, "success") || (ran == Some(RankingQuery) && resp == Response(500, "error"))
    ensures ran.Some? && ran.value != RankingQuery ==> resp == Response(200, "success")
    ensures ran.None? || ran.value !in {Sorry, Say, Echo, Timer, TimeReport, Omikuji, RankingQuery, Recount} ==>
              chat.sent == old(chat.sent) && unchanged(db)
    ensures ran == Some(Say) ==> chat.sent == old(chat.sent) + [Post(NatToString(data.value.room), SayReply(data.value.body.value))]
    ensures ran == Some(Echo) ==> chat.sent == old(chat.sent) + [Post(NatToString(data.value.room), EchoReply(data.value.body.value))]
    ensures ran == Some(RankingQuery) ==>
              (resp == Response(500, "error") <==>
               RankingRaises(db.connected, db.userMessageCounts,
                             RankingRequestOf(data.value.body.value, data.value.room, world.today),
                             world.members, world.roomName))
    ensures ran == Some(Timer) ==> TimerEffect(chat, data.value.room, data.value.account, data.value.body.value)
    ensures ran == Some(Sorry) ==> SorryEffect(db, chat, data.value.room, data.value.body.value)
    ensures ran == Some(TimeReport) ==> TimeReportEffect(db, chat, data.value.room, data.value.body.value)
    ensures ran == Some(Omikuji) ==>
              OmikujiEffect(db, chat, data.value.room, data.value.account, world.today, world.pick)
    ensures ran == Some(RankingQuery) ==>
              RankingEffect(db, chat, data.value.room, data.value.body.value, world.today, world.members, world.roomName)
    ensures ran == Some(Recount) ==> RecountEffect(db, chat, data.value.room, data.value.body.value, world.fetched)
    ensures ran != Some(Sorry) ==> db.viewerList == old(db.viewerList)
    ensures ran != Some(TimeReport) ==> db.hourlyReportRooms == old(db.hourlyReportRooms)
    ensures ran != Some(Omikuji) ==> db.omikujiHistory == old(db.omikujiHistory)
    ensures ran != Some(Recount) ==> db.userMessageCounts == old(db.userMessageCounts)
  {
    ran := None;
    if data.None? {
      return Response(400, "no data"), None;
    }
    var p := data.value;
    if p.eventType != Some("message_created") {
      return Response(200, "not message_created event"), None;
    }
    if p.body.None? || IsBlank(p.body.value) {
      return Response(500, "error"), None;
    }
    var body := p.body.value;
    var command := Lower(Words(body)[0]);
    ran := CommandOf(command);
    if ran.None? {
      return Response(200, "success"), ran;
    }
    var raised := RunCommand(db, chat, ran.value, p, body, world);
    resp := if raised then Response(500, "error") else Response(200, "success");
  }
}
