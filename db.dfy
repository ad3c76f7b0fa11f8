/**
 * The state the bot works against. `Store` holds the database tables the bot reads and
 * writes, one field per table; `Chat` records the messages the bot posts to chat rooms,
 * in the order it posts them. Both stand in for external services (the hosted database
 * and the chat platform's HTTP API): each store call becomes an update of a field here.
 */
module Db {
  import opened Wrappers

  /** A calendar date in ISO form (`YYYY-MM-DD`), as the tables store it. */
  type Date = string

  /** An entry of a room's member list as the chat platform returns it. */
  datatype Member = Member(account: nat, name: string, role: string)

  /** A row of `message_counts`: messages of one account in one room on one date. */
  datatype CountRow = CountRow(room: nat, date: Date, account: nat, name: string, count: nat)

  /** A row of `readonly_users`. */
  datatype ReadonlyRow = ReadonlyRow(account: nat, timestamp: string)

  /** A row of `user_message_counts`, the table the slash commands and jobs use. */
  datatype UserCountRow = UserCountRow(user: nat, room: nat, date: Date, count: nat, lastMessageId: nat)

  /** A row of `hourly_report_rooms`. */
  datatype HourlyRow = HourlyRow(room: nat, interval: int)

  /** A row of `omikuji_history`. */
  datatype OmikujiRow = OmikujiRow(user: nat, lastDrawn: Date)

  class Store {
    /** Whether a database client could be created (the services layer checks this on every call). */
    const connected: bool
    var messageCounts: seq<CountRow>
    /** `last_message_ids`, keyed by account id. */
    var lastMessageIds: map<nat, nat>
    var readonlyUsers: seq<ReadonlyRow>
    /** `room_info`, keyed by the room id as a string, holding the room name. */
    var roomInfo: map<string, string>
    var userMessageCounts: seq<UserCountRow>
    var hourlyReportRooms: seq<HourlyRow>
    var omikujiHistory: seq<OmikujiRow>
    /** `ranking_rooms`: the rooms that receive the daily ranking. */
    var rankingRooms: seq<nat>
    /** `viewer_list`: user ids. */
    var viewerList: seq<nat>

    constructor (connected: bool)
      ensures this.connected == connected
      ensures messageCounts == [] && lastMessageIds == map[] && readonlyUsers == []
      ensures roomInfo == map[] && userMessageCounts == [] && hourlyReportRooms == []
      ensures omikujiHistory == [] && rankingRooms == [] && viewerList == []
    {
      this.connected := connected;
      messageCounts, lastMessageIds, readonlyUsers := [], map[], [];
      roomInfo, userMessageCounts, hourlyReportRooms := map[], [], [];
      omikujiHistory, rankingRooms, viewerList := [], [], [];
    }
  }

  /** What a posted message says. Fixed notices are named; bodies the bot composes are `Text`. */
  datatype Content =
    | Text(text: string)
    | HelpText
    | NoRankingData
    | WeatherReport(city: string)
    | AskForCity
    | BotNotAdmin
    | BotAlreadyAdmin
    | ReadonlyNeedsBotAdmin
    | ReadonlyBadFormat
    | AlreadyReadonly(account: nat)
    | AddedReadonly(account: nat)
    | RemovedReadonly(account: nat)
    | NotReadonly(account: nat)
    | ReadonlyBadAction
    | DatabaseUnavailable
    | NoDataForDate(date: Date)
    | RecountStarted(room: nat)
    | RecountNoMessages(room: nat)
    | RecountDone(room: nat)
    | RecountApiError
    | RecountUnexpectedError
    | HourlyEnabled
    | HourlyAlreadyEnabled
    | HourlyDisabled
    | IntervalNotPositive
    | IntervalSet(hours: nat, minutes: nat)
    | TimeReportUsage
    | OmikujiAlreadyDrawn
    | OmikujiResult(fortune: string)
    | BadRankingDate
    | NoMessagesFor(room: nat, date: Date)
    | RoomInfoFailed(room: nat)
    | TimerUsage
    | TimerNotPositive
    | TimerSet(minutes: nat)
    | TimerElapsed(account: nat, minutes: nat, task: string)
    | SayUsage
    | EchoUsage
    | SorryUsage
    | ViewerRemoved(user: nat)
    | ViewerNotFound
    | TimeSignal(stamp: string)
    | NoRankingYet(date: Date)

  /** A message posted to the room whose id appears in the request path as `room`. */
  datatype Post = Post(room: string, content: Content)

  class Chat {
    var sent: seq<Post>

    constructor ()
      ensures sent == []
    {
      sent := [];
    }
  }
}
