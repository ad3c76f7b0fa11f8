/**
 * The webhook handler and the keyword commands it dispatches to, and the daily job that
 * posts the per-room ranking and then clears that day's counts.
 */
module Handlers {
  import opened Wrappers
  import opened Text
  import opened Ranking
  import opened Db
  import opened Services

  // ---------------------------------------------------------------------------
  // Per-room ranking text
  // ---------------------------------------------------------------------------

  function RoomRankingHeader(date: Date): string {
    "【" + date + " の部屋別メッセージ数ランキング】\n"
  }

  /** `{rank}位: {room_name} ({count}件)\n`. */
  function RoomLine(rank: nat, name: string, count: int): string {
    NatToString(rank) + "位: " + name + " (" + IntToString(count) + "件)\n"
  }

  /** One line per ranked room, numbered from 1, naming the room from the room-info table. */
  function RoomLines(ranking: seq<(string, int)>, info: map<string, string>): (lines: seq<string>)
    ensures |lines| == |ranking|
    ensures forall i :: 0 <= i < |ranking| ==> lines[i] == RoomLine(i + 1, RoomName(info, ranking[i].0), ranking[i].1)
  {
    seq(|ranking|, (i: nat) requires i < |ranking| => RoomLine(i + 1, RoomName(info, ranking[i].0), ranking[i].1))
  }

  /** The ranking message: the header line, then one line per ranked room. */
  function RoomRankingText(date: Date, ranking: seq<(string, int)>, info: map<string, string>): string {
    RoomRankingHeader(date) + Concat(RoomLines(ranking, info))
  }

  /** Builds the ranking message line by line, as the ranking command and the daily job do. */
  method FormatRoomRanking(date: Date, ranking: seq<(string, int)>, info: map<string, string>) returns (text: string)
    ensures text == RoomRankingText(date, ranking, info)
  {
    var header := RoomRankingHeader(date);
    text := header;
    ghost var lines := RoomLines(ranking, info);
    var i := 0;
    while i < |ranking|
      invariant 0 <= i <= |ranking|
      invariant text == header + Concat(lines[..i])
    {
      var line := RoomLine(i + 1, RoomName(info, ranking[i].0), ranking[i].1);
      assert line == lines[i];
      ConcatPrefix(lines, i);
      AppendAssoc(header, Concat(lines[..i]), line);
      text := text + line;
      i := i + 1;
    }
    assert lines[..i] == lines;
  }

  // ---------------------------------------------------------------------------
  // The daily job and the ranking command
  // ---------------------------------------------------------------------------

  /** One post of `text` to each ranked room, in ranking order. */
  function PostsToAll(ranking: seq<(string, int)>, text: string): (posts: seq<Post>)
    ensures |posts| == |ranking|
    ensures forall i :: 0 <= i < |ranking| ==> posts[i] == Post(ranking[i].0, Text(text))
  {
    seq(|ranking|, (i: nat) requires i < |ranking| => Post(ranking[i].0, Text(text)))
  }

  lemma PostsToAllSnoc(ranking: seq<(string, int)>, text: string, i: nat)
    requires i < |ranking|
    ensures PostsToAll(ranking[..i + 1], text) == PostsToAll(ranking[..i], text) + [Post(ranking[i].0, Text(text))]
  {
  }

  /**
   * `post_ranking_job`: without data for `yesterday` nothing is posted or deleted;
   * otherwise the ranking goes to every ranked room and then that date's counts are
   * deleted, whatever became of the posts. `resetOk` is false when the delete raises.
   */
  method PostRankingJob(db: Store, chat: Chat, yesterday: Date, resetOk: bool)
    modifies db`messageCounts, chat
    ensures var ranking := RoomRanking(old(db.messageCounts), yesterday);
            !db.connected || ranking == [] ==>
              chat.sent == old(chat.sent) && db.messageCounts == old(db.messageCounts)
    ensures var ranking := RoomRanking(old(db.messageCounts), yesterday);
            db.connected && ranking != [] ==>
              chat.sent == old(chat.sent) + PostsToAll(ranking, RoomRankingText(yesterday, ranking, db.roomInfo))
    ensures var ranking := RoomRanking(old(db.messageCounts), yesterday);
            db.connected && ranking != [] ==>
              db.messageCounts == if resetOk then WithoutDate(old(db.messageCounts), yesterday) else old(db.messageCounts)
  {
    var ranking := GetMessageCountForRanking(db, yesterday);
    if ranking == [] {
      return;
    }
    var info := GetAllRoomInfo(db);
    var text := FormatRoomRanking(yesterday, ranking, info);
    SendToAll(chat, ranking, text);
    var _ := ResetMessageCounts(db, yesterday, resetOk);
  }

  /** The posting loop of `post_ranking_job`: `text` to each ranked room, in ranking order. */
  method SendToAll(chat: Chat, ranking: seq<(string, int)>, text: string)
    modifies chat
    ensures chat.sent == old(chat.sent) + PostsToAll(ranking, text)
  {
    var i := 0;
    while i < |ranking|
      invariant 0 <= i <= |ranking|
      invariant chat.sent == old(chat.sent) + PostsToAll(ranking[..i], text)
    {
      var post := Post(ranking[i].0, Text(text));
      PostsToAllSnoc(ranking, text, i);
      AppendAssoc(old(chat.sent), PostsToAll(ranking[..i], text), [post]);
      chat.sent := chat.sent + [post];
      i := i + 1;
    }
    assert ranking[..i] == ranking;
  }

  /** The reply of `handle_ranking_command`: the ranking for `yesterday`, or a notice when there is none. */
  function RoomRankingPost(connected: bool, counts: seq<CountRow>, info: map<string, string>, room: nat, yesterday: Date): Post {
    var ranking := if connected then RoomRanking(counts, yesterday) else [];
    Post(NatToString(room), if ranking == [] then NoRankingData else Text(RoomRankingText(yesterday, ranking, info)))
  }

  /** `handle_ranking_command`: posts `RoomRankingPost` to the asking room. */
  method HandleRankingCommand(db: Store, chat: Chat, room: nat, yesterday: Date)
    modifies chat
    ensures chat.sent == old(chat.sent) + [RoomRankingPost(db.connected, db.messageCounts, db.roomInfo, room, yesterday)]
  {
    var ranking := GetMessageCountForRanking(db, yesterday);
    if ranking == [] {
      chat.sent := chat.sent + [Post(NatToString(room), NoRankingData)];
      return;
    }
    var text := FormatRoomRanking(yesterday, ranking, GetAllRoomInfo(db));
    chat.sent := chat.sent + [Post(NatToString(room), Text(text))];
  }

  // ---------------------------------------------------------------------------
  // Keyword commands
  // ---------------------------------------------------------------------------

  /** `content.replace("天気", "").strip()`. */
  function WeatherCity(content: string): (city: string)
    ensures city == [] <==> IsBlank(ReplaceAll(content, "天気", ""))
    ensures city != [] ==> !IsSpace(city[0]) && !IsSpace(city[|city| - 1])
  {
    StripProperties(ReplaceAll(content, "天気", ""));
    Strip(ReplaceAll(content, "天気", ""))
  }

  /** The reply of `handle_weather_command`: the lookup for the named city, or a request to name one. */
  function WeatherPost(room: nat, content: string): Post {
    Post(NatToString(room), if WeatherCity(content) != [] then WeatherReport(WeatherCity(content)) else AskForCity)
  }

  /** `handle_weather_command`: posts `WeatherPost` to the asking room. */
  method HandleWeatherCommand(chat: Chat, room: nat, content: string)
    modifies chat
    ensures chat.sent == old(chat.sent) + [WeatherPost(room, content)]
  {
    var city := WeatherCity(content);
    if city != [] {
      chat.sent := chat.sent + [Post(NatToString(room), WeatherReport(city))];
    } else {
      chat.sent := chat.sent + [Post(NatToString(room), AskForCity)];
    }
  }

  /** The reply of `handle_admin_permission_command`: whether the bot already is an administrator of the room. */
  function AdminPost(room: nat, members: Option<seq<Member>>, botId: string): Post {
    Post(NatToString(room), if IsBotAdmin(members, botId) then BotAlreadyAdmin else BotNotAdmin)
  }

  /** `handle_admin_permission_command`: posts `AdminPost` to the asking room. */
  method HandleAdminPermissionCommand(chat: Chat, room: nat, members: Option<seq<Member>>, botId: string)
    modifies chat
    ensures chat.sent == old(chat.sent) + [AdminPost(room, members, botId)]
  {
    if !IsBotAdmin(members, botId) {
      chat.sent := chat.sent + [Post(NatToString(room), BotNotAdmin)];
    } else {
      chat.sent := chat.sent + [Post(NatToString(room), BotAlreadyAdmin)];
    }
  }

  /** The second whitespace-separated word of the command, if there is one. */
  function ReadonlyAction(content: string): (action: Option<string>)
    ensures action.Some? <==> |Words(Strip(content))| >= 2
    ensures action.Some? ==> action.value == Words(Strip(content))[1] && action.value != [] && NoSpace(action.value)
  {
    var parts := Words(Strip(content));
    if |parts| < 2 then None else Some(parts[1])
  }

  /** The reply of the readonly command, given whether the account was registered beforehand. */
  function ReadonlyReply(botAdmin: bool, content: string, wasRegistered: bool, account: nat): Content {
    if !botAdmin then ReadonlyNeedsBotAdmin
    else match ReadonlyAction(content)
      case None => ReadonlyBadFormat
      case Some(action) =>
        if action == "追加" then (if wasRegistered then AlreadyReadonly(account) else AddedReadonly(account))
        else if action == "削除" then (if wasRegistered then RemovedReadonly(account) else NotReadonly(account))
        else ReadonlyBadAction
  }

  /**
   * The readonly table after the command: without a database, without bot administrator
   * rights or without an action word it is unchanged; 追加 registers the account unless it
   * already is; 削除 removes its rows; any other action changes nothing.
   */
  function ReadonlyRows(connected: bool, botAdmin: bool, content: string, rows: seq<ReadonlyRow>,
                        account: nat, timestamp: string): (after: seq<ReadonlyRow>)
    ensures connected && botAdmin && ReadonlyAction(content) == Some("追加") ==> Registered(after, account)
    ensures connected && botAdmin && ReadonlyAction(content) == Some("削除") ==> !Registered(after, account)
    ensures !(connected && botAdmin && ReadonlyAction(content) in {Some("追加"), Some("削除")}) ==> after == rows
  {
    var action := ReadonlyAction(content);
    if !connected || !botAdmin || action.None? then rows
    else if action.value == "追加" then
      (if Registered(rows, account) then rows
       else RegisteredAfterSave(rows, account, timestamp, account + 1); rows + [ReadonlyRow(account, timestamp)])
    else if action.value == "削除" then RegisteredAfterRemove(rows, account, account + 1); WithoutAccount(rows, account)
    else rows
  }

  /** The command changes the standing of the mentioned account only. */
  lemma ReadonlyRowsOthers(connected: bool, botAdmin: bool, content: string, rows: seq<ReadonlyRow>,
                           account: nat, timestamp: string, other: nat)
    requires other != account
    ensures Registered(ReadonlyRows(connected, botAdmin, content, rows, account, timestamp), other) == Registered(rows, other)
  {
    RegisteredAfterSave(rows, account, timestamp, other);
    RegisteredAfterRemove(rows, account, other);
  }

  /**
   * `handle_readonly_user_command`: without bot administrator rights or without an action
   * word it only replies; 追加 registers the account unless it already is; 削除 removes its
   * rows and says whether there were any; any other action changes nothing.
   */
  method HandleReadonlyUserCommand(db: Store, chat: Chat, room: nat, content: string,
                                   members: Option<seq<Member>>, botId: string, account: nat, timestamp: string)
    modifies db`readonlyUsers, chat
    ensures var registered := db.connected && Registered(old(db.readonlyUsers), account);
            chat.sent == old(chat.sent) +
              [Post(NatToString(room), ReadonlyReply(IsBotAdmin(members, botId), content, registered, account))]
    ensures db.readonlyUsers ==
              ReadonlyRows(db.connected, IsBotAdmin(members, botId), content, old(db.readonlyUsers), account, timestamp)
  {
    var target := NatToString(room);
    if !IsBotAdmin(members, botId) {
      chat.sent := chat.sent + [Post(target, ReadonlyNeedsBotAdmin)];
      return;
    }
    var parts := Words(Strip(content));
    if |parts| < 2 {
      chat.sent := chat.sent + [Post(target, ReadonlyBadFormat)];
      return;
    }
    var action := parts[1];
    if action == "追加" {
      if IsReadonlyUserInDb(db, account) {
        chat.sent := chat.sent + [Post(target, AlreadyReadonly(account))];
      } else {
        SaveReadonlyUserToDb(db, account, timestamp);
        chat.sent := chat.sent + [Post(target, AddedReadonly(account))];
      }
    } else if action == "削除" {
      var removed := RemoveReadonlyUserFromDb(db, account);
      if removed {
        chat.sent := chat.sent + [Post(target, RemovedReadonly(account))];
      } else {
        chat.sent := chat.sent + [Post(target, NotReadonly(account))];
      }
    } else {
      chat.sent := chat.sent + [Post(target, ReadonlyBadAction)];
    }
  }

  // ---------------------------------------------------------------------------
  // Webhook events
  // ---------------------------------------------------------------------------

  /** The keyword commands, in the order the branches try them. */
  datatype Command = Help | ShowRoomRanking | ShowPersonalRanking | Weather | BotAdminSetting | ReadonlySetting | NoCommand

  /**
   * The first matching keyword wins: `help` in any letter case, then ランキング,
   * 個人ランキング, 天気, bot管理者設定, and 読み取り専用ユーザー設定 with a mentioned account.
   */
  function Dispatch(body: string, mention: Option<nat>): (c: Command)
    ensures c == Help <==> Contains(Lower(body), "help")
    ensures c == ShowRoomRanking <==> !Contains(Lower(body), "help") && Contains(body, "ランキング")
    ensures c == ShowPersonalRanking <==>
              !Contains(Lower(body), "help") && !Contains(body, "ランキング") && Contains(body, "個人ランキング")
    ensures c == Weather <==>
              !Contains(Lower(body), "help") && !Contains(body, "ランキング") && !Contains(body, "個人ランキング") &&
              Contains(body, "天気")
    ensures c == BotAdminSetting <==>
              !Contains(Lower(body), "help") && !Contains(body, "ランキング") && !Contains(body, "個人ランキング") &&
              !Contains(body, "天気") && Contains(body, "bot管理者設定")
    ensures c == ReadonlySetting <==>
              !Contains(Lower(body), "help") && !Contains(body, "ランキング") && !Contains(body, "個人ランキング") &&
              !Contains(body, "天気") && !Contains(body, "bot管理者設定") &&
              Contains(body, "読み取り専用ユーザー設定") && Truthy(mention)
    ensures c == NoCommand <==>
              !Contains(Lower(body), "help") && !Contains(body, "ランキング") && !Contains(body, "個人ランキング") &&
              !Contains(body, "天気") && !Contains(body, "bot管理者設定") &&
              !(Contains(body, "読み取り専用ユーザー設定") && Truthy(mention))
  {
    if Contains(Lower(body), "help") then Help
    else if Contains(body, "ランキング") then ShowRoomRanking
    else if Contains(body, "個人ランキング") then ShowPersonalRanking
    else if Contains(body, "天気") then Weather
    else if Contains(body, "bot管理者設定") then BotAdminSetting
    else if Contains(body, "読み取り専用ユーザー設定") && Truthy(mention) then ReadonlySetting
    else NoCommand
  }

  /** A body containing 個人ランキング also contains ランキング, whose branch comes first. */
  lemma PersonalRankingUnreachable(body: string, mention: Option<nat>)
    ensures Dispatch(body, mention) != ShowPersonalRanking
  {
    if Contains(body, "個人ランキング") {
      assert "個人ランキング" == "個人" + "ランキング";
      ContainsSuffix(body, "個人", "ランキング");
    }
  }

  /** The fields of a `message_created` webhook event the handler reads. */
  datatype Event = Event(room: nat, messageId: nat, body: string, account: nat, accountName: string, roomName: string)

  /**
   * The mention field of the body: `NotJson` when the body does not parse as a JSON object
   * (the handler then fails), otherwise the mentioned account id, if any.
   */
  datatype MentionField = NotJson | Mention(account: Option<nat>)

  datatype Status = Ok | UserIsReadonly | Error

  /** The store and the chat services the commands consult, as observed during one event. */
  datatype Environment = Environment(
    today: Date, yesterday: Date, timestamp: string, botId: string, members: Option<seq<Member>>,
    roomWriteOk: bool, countWriteOk: bool, markWriteOk: bool)

  /**
   * What keyword command `c` posts for the event, given the store as the command sees it:
   * one reply to the event's room, or nothing when no keyword matched.
   */
  function KeywordPosts(c: Command, ev: Event, mention: Option<nat>, env: Environment, connected: bool,
                        counts: seq<CountRow>, info: map<string, string>, readonly: seq<ReadonlyRow>): (posts: seq<Post>)
    requires c == ReadonlySetting ==> mention.Some?
    ensures |posts| == if c == NoCommand then 0 else 1
    ensures forall i :: 0 <= i < |posts| ==> posts[i].room == NatToString(ev.room)
  {
    match c
    case Help => [Post(NatToString(ev.room), HelpText)]
    case ShowRoomRanking => [RoomRankingPost(connected, counts, info, ev.room, env.yesterday)]
    case ShowPersonalRanking => [PersonalRankingPost(connected, counts, ev.room, env.today)]
    case Weather => [WeatherPost(ev.room, ev.body)]
    case BotAdminSetting => [AdminPost(ev.room, env.members, env.botId)]
    case ReadonlySetting =>
      [Post(NatToString(ev.room), ReadonlyReply(IsBotAdmin(env.members, env.botId), ev.body,
                                                connected && Registered(readonly, mention.value), mention.value))]
    case NoCommand => []
  }

  /** The readonly table after keyword command `c`: only the readonly setting changes it. */
  function KeywordReadonly(c: Command, ev: Event, mention: Option<nat>, env: Environment, connected: bool,
                           readonly: seq<ReadonlyRow>): (after: seq<ReadonlyRow>)
    requires c == ReadonlySetting ==> mention.Some?
    ensures c != ReadonlySetting ==> after == readonly
    ensures c == ReadonlySetting ==> after == ReadonlyRows(connected, IsBotAdmin(env.members, env.botId), ev.body,
                                                           readonly, mention.value, env.timestamp)
  {
    if c == ReadonlySetting
    then ReadonlyRows(connected, IsBotAdmin(env.members, env.botId), ev.body, readonly, mention.value, env.timestamp)
    else readonly
  }

  /** Runs one keyword command for the event's room; only the readonly setting writes to the store. */
  method RunKeywordCommand(db: Store, chat: Chat, ev: Event, command: Command, mention: Option<nat>, env: Environment)
    requires command == Dispatch(ev.body, mention)
    modifies db`readonlyUsers, chat
    ensures chat.sent == old(chat.sent) + KeywordPosts(command, ev, mention, env, db.connected, db.messageCounts,
                                                      db.roomInfo, old(db.readonlyUsers))
    ensures db.readonlyUsers == KeywordReadonly(command, ev, mention, env, db.connected, old(db.readonlyUsers))
  {
    match command {
    case Help =>
      chat.sent := chat.sent + [Post(NatToString(ev.room), HelpText)];
    case ShowRoomRanking =>
      HandleRankingCommand(db, chat, ev.room, env.yesterday);
    case ShowPersonalRanking =>
      PostPersonalRanking(db, chat, ev.room, env.today);
    case Weather =>
      HandleWeatherCommand(chat, ev.room, ev.body);
    case BotAdminSetting =>
      HandleAdminPermissionCommand(chat, ev.room, env.members, env.botId);
    case ReadonlySetting =>
      HandleReadonlyUserCommand(db, chat, ev.room, ev.body, env.members, env.botId,
                                mention.value, env.timestamp);
    case NoCommand =>
    }
  }

  /**
   * `handle_webhook_event`: records the room's name; stops at once for a registered
   * readonly sender; otherwise counts the message, reads the mention, and runs the first
   * matching command, which sees the counts as they are after this message.
   */
  method HandleWebhookEvent(db: Store, chat: Chat, ev: Event, mention: MentionField, env: Environment)
    returns (status: Status)
    modifies db`roomInfo, db`messageCounts, db`lastMessageIds, db`readonlyUsers, chat
    ensures db.roomInfo == if db.connected && env.roomWriteOk then old(db.roomInfo)[NatToString(ev.room) := ev.roomName]
                           else old(db.roomInfo)
    ensures status == UserIsReadonly <==> db.connected && Registered(old(db.readonlyUsers), ev.account)
    ensures status == UserIsReadonly ==>
              db.messageCounts == old(db.messageCounts) && db.lastMessageIds == old(db.lastMessageIds) &&
              db.readonlyUsers == old(db.readonlyUsers) && chat.sent == old(chat.sent)
    ensures status != UserIsReadonly ==>
              Counter(db.messageCounts, db.lastMessageIds) ==
              CountAfter(db.connected, old(Counter(db.messageCounts, db.lastMessageIds)),
                         ev.room, env.today, ev.account, ev.accountName, ev.messageId, env.countWriteOk, env.markWriteOk)
    ensures status == Error <==> !(status == UserIsReadonly) && mention.NotJson?
    ensures status == Error ==> chat.sent == old(chat.sent) && db.readonlyUsers == old(db.readonlyUsers)
    ensures status == Ok ==>
              var c := Dispatch(ev.body, mention.account);
              chat.sent == old(chat.sent) + KeywordPosts(c, ev, mention.account, env, db.connected, db.messageCounts,
                                                        db.roomInfo, old(db.readonlyUsers)) &&
              db.readonlyUsers == KeywordReadonly(c, ev, mention.account, env, db.connected, old(db.readonlyUsers))
  {
    var _ := UpdateRoomInfoInDb(db, ev.room, ev.roomName, env.roomWriteOk);
    if IsReadonlyUserInDb(db, ev.account) {
      return UserIsReadonly;
    }
    UpdateMessageCountInDb(db, ev.room, env.today, ev.account, ev.accountName, ev.messageId,
                           env.countWriteOk, env.markWriteOk);
    if mention.NotJson? {
      return Error;
    }
    var command := Dispatch(ev.body, mention.account);
    RunKeywordCommand(db, chat, ev, command, mention.account, env);
    return Ok;
  }
}
