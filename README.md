# Chatwork bot: store bookkeeping, command parsing and dispatch

This project models the core of a Chatwork bot written in Python, and proves properties about that model. The bot is a Flask webhook endpoint with a Supabase store behind it. It counts every message a room member posts, once per message id. It posts daily room rankings and then clears that day's counts. It keeps a registry of readonly users whose messages it ignores, and computes the role lists for a permission change. It also answers slash commands: `/sorry`, `/say`, `/echo`, `/timer`, `/時報`, `おみくじ`, `/ranking`, `/recount`.

Every store table is a field of the class `Db.Store`:

- `message_counts`, `last_message_ids` and `readonly_users`;
- `room_info` and `user_message_counts`;
- `hourly_report_rooms`, `omikuji_history`, `ranking_rooms` and `viewer_list`.

Each store call is an update of that field. `Store.connected` stands for whether the store client could be created. The class `Db.Chat` is the outbox: every message the bot sends is appended to `Chat.sent` as a `Post(room, content)`.

The modules follow the source files:

| module | source | what it holds |
|---|---|---|
| `Wrappers` | — | `Option` |
| `Text` | — | scanners standing in for the regexes: digit runs, whitespace, `split`, `strip`, `lower`, `replace`, `in` |
| `Ranking` | — | the dict tally of a loop, Python's stable descending sort, `limit(n)` |
| `Db` | `db.py` | the store tables and the outbox |
| `Queries` | — | the `user_message_counts` reads shared by `/ranking` and the daily job |
| `Services` | `services.py` | the message counter, the room ranking and its reset, the personal ranking, the readonly registry, room info, payload formatting |
| `Utils` | `utils.py` | admin test and role repartition |
| `Handlers` | `handlers.py` | webhook sequencing, keyword dispatch, readonly command, daily room-ranking job |
| `AdminCommands` | `commands/admin_commands.py` | `/recount` |
| `MainCommands` | `commands/main_commands.py` | the slash commands |
| `Jobs` | `jobs.py` | the hourly notice job and the daily top-5 job |
| `Endpoint` | `main.py`, `commands.py` | the endpoint; the command table |

Inputs stand in for what the bot reads from the outside world:

- the clock: `today`, `yesterday`, `minute`, timestamps;
- randomness: `pick`;
- Chatwork API answers: member lists, fetched messages, room names; `None` where the call raises;
- the JSON mention field of a message body;
- whether a given store write succeeds.

## Model

| member | source | states |
|---|---|---|
| Services.MessagePayload | services.py:26-32 | Unless both the reply account and the reply message id are truthy (present and non-zero), the body is sent unchanged. Otherwise a reply header starting with `[` is prepended. |
| Services.ReplyRoundTrip | services.py:31-32 | Parsing the reply header back from a payload recovers the account, room, message id and body it was built from. |
| Services.PayloadShape | services.py:31-32 | The reply payload is `[rp aid=A to=R-M]`, a newline, then the body, with A, R and M as decimal strings. |
| Services.PermissionsPayload | services.py:52-59 | Each of the three permission fields parses back to exactly the id list it was built from. |
| Services.AnyBotAdmin | services.py:67-72 | True iff some member's stringified id equals the bot's id and that member's role is `admin`. |
| Services.IsBotAdmin | services.py:67-72 | False when the member list could not be fetched. Otherwise true iff the bot is listed as an admin. |
| Services.FindRow | services.py:108-110 | Returns the first row matching (room, date, account), or none exactly when no row matches. |
| Services.BumpExisting | services.py:108-111 | When a matching row exists, that row's count rises by one and every other row stays as it was. |
| Services.BumpNew | services.py:112-113 | When no row matches, exactly one row (room, date, account, name, count 1) is appended. |
| Services.BumpCounts | services.py:108-113 | The count of (room, date, account) grows by exactly 1. The count of every other key is unchanged. |
| Services.BumpKeepsUnique | services.py:108-113 | A table holding at most one row per key still does after the bump. |
| Services.Deliver | services.py:102-116 | A message the high-water mark rejects changes nothing. An accepted one bumps its count and sets the account's mark to its id. |
| Services.RejectsRedelivery | services.py:102-105 | A message whose id is ≤ the account's stored non-zero mark leaves both tables unchanged. |
| Services.CountsWithoutMark | services.py:102-103 | With no stored mark, or a falsy mark of 0, the message is always counted. |
| Services.DeliverIdempotent | services.py:102-116 | Delivering the same non-zero message id twice has the effect of delivering it once. |
| Services.ZeroIdCountedTwice | services.py:102-103 | A message with id 0 passes the falsy-mark test every time, so each redelivery counts again. |
| Services.OutOfOrderExample | services.py:102-116 | Ids 5, 3, 5, 7 on a fresh counter are counted twice, and the mark ends at 7. |
| Services.CountAfter | services.py:97-119 | With the store available and both writes succeeding, the step is `Deliver`. With no store or a failed count write, nothing changes. A failed mark write leaves the marks unchanged. The rows are either unchanged or bumped once, so a count grows by at most 1. |
| Services.GetLastMessageId | services.py:75-83 | Returns the account's stored mark. Returns none when the store is unavailable or there is no row. |
| Services.UpdateLastMessageId | services.py:85-95 | Succeeds iff the store is available and the write succeeds. Success sets the mark. Failure leaves the table as it was. |
| Services.UpdateMessageCountInDb | services.py:97-119 | The new count and mark tables are `CountAfter` of the old ones. |
| Services.RowsOn | services.py:126 | Holds exactly the count rows of the given date. |
| Services.RoomEntries | services.py:130-132 | One (stringified room id, count) entry per row, in table order. |
| Services.RoomEntriesSum | services.py:129-133 | A room's accumulated value is the sum of `message_count` over that date's rows for the room. |
| Services.RoomKeysIn | services.py:129-133 | A key is accumulated iff it is the stringified id of a room with a row on that date. |
| Services.RoomTotalsSound | services.py:129-133 | Every accumulated entry belongs to a room with rows on that date and carries that room's sum. |
| Services.RoomTotalsComplete | services.py:129-133 | Every room with rows on that date has its (key, sum) entry. |
| Services.RoomTotalsOrder | services.py:129-133 | Each key appears once, in order of first appearance (dict insertion order). |
| Services.RoomRankingProperties | services.py:136 | The ranking is non-increasing by count and holds the same entries as the totals. Among equal counts it keeps first-appearance order, as the stable sort does. |
| Services.GetMessageCountForRanking | services.py:121-140 | Returns the ranking of that date, or an empty ranking when the store is unavailable. |
| Services.TallyRooms | services.py:129-133 | The dict-building loop yields the tally (key order and sums) of the room entries. |
| Services.WithoutDate | services.py:148 | Keeps exactly the rows whose date differs from the given one. |
| Services.WithoutDateProperties | services.py:148 | After the delete, no row of that date remains, and the rows of every other date are untouched. |
| Services.ResetMessageCounts | services.py:143-152 | Succeeds iff the store is available and the delete succeeds. Success removes exactly that date's rows. Failure changes nothing. |
| Services.RowsOfRoom | services.py:161 | Holds exactly the rows of the given room and date. |
| Services.TotalSorted | services.py:161-166 | Ordering the rows by count does not change their total. |
| Services.PersonalLines | services.py:166-171 | The lines are a header, one line per row numbered from 1 in ranking order, a blank line, and a footer with the total. |
| Services.PostPersonalRanking | services.py:154-175 | Posts one message to the room, `Services.PersonalRankingPost`. With the store unavailable it is the error notice. With no rows it is the no-data notice. Otherwise it is the joined lines over the rows ordered by count, descending, and the posted total equals the total of the room's rows that day. |
| Services.Registered | services.py:207-208 | True iff some registry row has the account. |
| Services.WithoutAccount | services.py:196 | Keeps exactly the registry rows of other accounts. |
| Services.RegisteredAfterSave | services.py:183-186 | After the insert, the account is registered. Every other account's status is unchanged. |
| Services.RegisteredAfterRemove | services.py:196-197 | After the delete, the account is not registered. Every other account's status is unchanged. |
| Services.IsReadonlyUserInDb | services.py:202-211 | True iff the store is available and a registry row exists for the account. |
| Services.SaveReadonlyUserToDb | services.py:177-189 | Appends one row with the account and the timestamp. The account is then found by the registry lookup. |
| Services.RemoveReadonlyUserFromDb | services.py:191-200 | Returns true iff at least one row was deleted. Removes every row of the account and no other row. |
| Services.UpdateRoomInfoInDb | services.py:241-254 | Upserts the room's name under its stringified id. The result is true iff the store is available and the upsert succeeds. A failed upsert is caught and leaves the table as it was. |
| Services.GetAllRoomInfo | services.py:256-266 | Returns the whole room-name table, or an empty one when the store is unavailable. |
| Services.RoomName | handlers.py:100 | Returns the recorded room name, or `Unknown Room` when none is recorded. |
| Utils.IsAdmin | utils.py:56-63 | True iff some member has the given account id and role `admin`. |
| Utils.BotAdminIsAdmin | utils.py:63 | The bot-admin test on a fetched list agrees with `is_admin` for the bot's own account. |
| Utils.IdsWithRole | utils.py:84-86 | Holds exactly the ids of members with that role, and no more ids than there are members. |
| Utils.IdsWithRoleDistinct | utils.py:84-86 | With unique member ids, a role list has no duplicates. |
| Utils.IdsWithRoleOrder | utils.py:84-86 | Members with the same role keep their input order in that role's list. |
| Utils.RemoveFirst | utils.py:92-103 | `list.remove`: drops the first occurrence, and leaves a list without the id as it is. |
| Utils.RemoveFirstDistinct | utils.py:92-103 | On a list without duplicates, the removal takes the id out entirely, keeps the list duplicate-free, and adds nothing. |
| Utils.OthersRemoveFirst | utils.py:92-103 | The removal keeps every other id, in the same relative order. |
| Utils.ChangeUserRole | utils.py:73-111 | Returns the invalid-role error iff the role is not `admin`, `member` or `readonly`, and then no request is built. Otherwise each payload field parses back to the corresponding list after the move. |
| Utils.PartitionPlacement | utils.py:84-86 | Before the change, every member with a valid role is in exactly the list of its current role. |
| Utils.TargetPlaced | utils.py:89-103 | After a change to role r, the account is in r's list and in neither of the other two. |
| Utils.AlreadyInRole | utils.py:89-103 | An account already in r's list leaves all three lists unchanged. |
| Utils.OthersUnchanged | utils.py:84-103 | Every account other than the target keeps its list and its relative order in it. |
| Handlers.RoomLines | handlers.py:47-50 | One line per ranked room, numbered from 1 in ranking order, with the room's recorded name or `Unknown Room`. |
| Handlers.FormatRoomRanking | handlers.py:47-50 | The accumulating loop produces the header followed by the ranking lines. |
| Handlers.PostsToAll | handlers.py:52-53 | One post of the text to each ranked room, in ranking order. |
| Handlers.SendToAll | handlers.py:52-53 | The send loop appends exactly those posts. |
| Handlers.PostRankingJob | handlers.py:30-56 | With no data (or no store), nothing is posted and nothing is reset. Otherwise the ranking of yesterday is posted to every ranked room. After that, that date's rows are deleted if the delete succeeds, whatever the sends returned. |
| Handlers.HandleRankingCommand | handlers.py:86-103 | Posts `Handlers.RoomRankingPost` to the asking room: yesterday's room ranking, or the no-data notice when the ranking is empty. |
| Handlers.WeatherCity | handlers.py:110 | The city is empty iff the text with every 天気 removed is blank. Otherwise it is stripped at both ends. |
| Handlers.HandleWeatherCommand | handlers.py:106-115 | Posts `Handlers.WeatherPost`: the report for the city, or a request for a city when there is none. |
| Handlers.HandleAdminPermissionCommand | handlers.py:117-134 | Posts `Handlers.AdminPost`, which says the bot already is an admin iff the bot-admin test holds. |
| Handlers.ReadonlyAction | handlers.py:149-159 | There is an action iff the stripped content has at least two tokens. The action is then the second token. |
| Handlers.ReadonlyRows | handlers.py:136-178 | With the store, bot-admin rights and 追加, the account is registered afterwards. With 削除 it is not. Without all three of those, or with another action, the table is unchanged. |
| Handlers.ReadonlyRowsOthers | handlers.py:136-178 | The command never changes whether any other account is registered. |
| Handlers.HandleReadonlyUserCommand | handlers.py:136-178 | If the bot is not admin, or there is no action, it only replies. 追加 inserts the account unless it is already registered. 削除 removes its rows, and the reply says whether any were removed. Any other action changes nothing. Exactly one reply is posted. |
| Handlers.Dispatch | handlers.py:218-230 | Each command is chosen iff its keyword occurs and no earlier branch's keyword does. `help` is matched case-insensitively. The readonly setting also needs a truthy mentioned account. No command is chosen iff no branch matches. |
| Handlers.PersonalRankingUnreachable | handlers.py:220-224 | The personal-ranking branch is never taken, because 個人ランキング contains ランキング, which is tested first. |
| Handlers.KeywordPosts | handlers.py:218-230 | Each keyword command posts exactly one reply to the event's room, and no command posts nothing. |
| Handlers.KeywordReadonly | handlers.py:228-229 | Only the readonly setting changes the readonly table, and then as `Handlers.ReadonlyRows` says. |
| Handlers.RunKeywordCommand | handlers.py:218-230 | The outbox gains exactly `Handlers.KeywordPosts` for the command: the help text, or the reply the called handler's own contract states. The readonly table becomes `Handlers.KeywordReadonly`. |
| Handlers.HandleWebhookEvent | handlers.py:183-235 | The room name is recorded first, when the store is available and the upsert succeeds. The result is "User is readonly" iff the sender is registered, and then nothing is counted or posted. Otherwise the message is counted before the mention is read. A body that is not JSON ends the event with an error and no command. Otherwise the outbox and the readonly table change exactly as `Handlers.KeywordPosts` and `Handlers.KeywordReadonly` say for the command `Handlers.Dispatch` picks, on the counts after this message. |
| AdminCommands.RecountTargetOf | commands/admin_commands.py:57-58 | `/recount n` followed by a non-digit targets room n. |
| AdminCommands.RecountTargetDefault | commands/admin_commands.py:57-58 | `/recount` without a number targets the current room. |
| AdminCommands.RecountTargetAbsent | commands/admin_commands.py:57-58 | A body without `/recount` targets the current room. |
| AdminCommands.WithoutRoom | commands/admin_commands.py:60 | Keeps exactly the rows of other rooms. |
| AdminCommands.Reversed | commands/admin_commands.py:72 | The reversal has the same length as the input. |
| AdminCommands.ReversedTwice | commands/admin_commands.py:72 | Reversing twice gives back the original sequence. |
| AdminCommands.Reverse | commands/admin_commands.py:72 | Reverses the message array in place. |
| AdminCommands.GroupsOf | commands/admin_commands.py:73-80 | A (user, date) key has a group iff some message has that key. The order list and the dict hold the same keys. |
| AdminCommands.GroupsOrder | commands/admin_commands.py:73-80 | The groups come in order of first appearance of their keys. |
| AdminCommands.GroupsCounts | commands/admin_commands.py:73-80 | Each group's count is the number of messages with its key. |
| AdminCommands.GroupsFirstIds | commands/admin_commands.py:78-79 | Each group keeps the id of the first message seen with its key, and later messages never overwrite it. |
| AdminCommands.GroupsTotal | commands/admin_commands.py:73-80 | The group counts sum to the number of messages. |
| AdminCommands.RowsFor | commands/admin_commands.py:81-89 | One row per key, in key order, carrying the user, target room, date, count and first message id. |
| AdminCommands.RecountRowKeys | commands/admin_commands.py:81-89 | The rows' keys are exactly the distinct message keys, in first-seen order. |
| AdminCommands.RecountRowsDistinct | commands/admin_commands.py:81-89 | No two rows share a (user, date) key. |
| AdminCommands.RecountRowsCover | commands/admin_commands.py:81-89 | Every fetched message's key has a row. |
| AdminCommands.RecountRowsContent | commands/admin_commands.py:72-89 | Each row belongs to the target room. Its count is the number of messages with its key, and its id is that of the first such message. |
| AdminCommands.RecountRowsTotal | commands/admin_commands.py:81-91 | The row counts sum to the number of fetched messages. There are no rows iff nothing was fetched. |
| AdminCommands.GroupMessages | commands/admin_commands.py:73-80 | The grouping loop over the array computes `GroupsOf` of its contents. |
| AdminCommands.CountMessage | commands/admin_commands.py:77-80 | One loop step adds one message to the groups. |
| AdminCommands.BuildRows | commands/admin_commands.py:81-89 | The row-building loop computes `RowsFor`. |
| AdminCommands.RecountMessages | commands/admin_commands.py:72-89 | Reverse, group and build give the rows of the reversed message list. |
| AdminCommands.InsertFetched | commands/admin_commands.py:69-91 | The table gains exactly the rebuilt rows of the fetched messages, and nothing when the fetch failed or returned no message. |
| AdminCommands.RecountCommand | commands/admin_commands.py:52-96 | With the store unavailable, it only sends the error reply. Otherwise it deletes the target room's rows before fetching. It inserts the rows of the fetched messages only when there are any (none when the fetch failed). It then sends the start reply followed by the outcome reply. The effect is stated as `AdminCommands.RecountEffect`. |
| Jobs.PyMod | jobs.py:25 | Python's `%`: the remainder has the divisor's sign and is zero iff the divisor divides the dividend. |
| Jobs.SignalsIff | jobs.py:19-27 | A room gets the notice iff a row for it, before any row with interval 0 (where the job stops), has an interval that divides the minute. |
| Jobs.SignalsSound | jobs.py:19-27 | Every posted notice comes from such a row. |
| Jobs.SignalsComplete | jobs.py:19-27 | Every such row yields a notice for its room. |
| Jobs.OnTheHour | jobs.py:25 | The default interval of 60 is due iff the minute is 0. |
| Jobs.NegativeInterval | jobs.py:25 | An interval of -n is due iff n divides the minute. |
| Jobs.TimeReportJob | jobs.py:13-30 | With the store unavailable, nothing is posted. Otherwise exactly those notices are posted, in table order. |
| Jobs.UntilNone | jobs.py:46-74 | Keeps the results before the first failure, which ends the loop. |
| Jobs.RoomPost | jobs.py:49-71 | Every post goes to its own room. The no-ranking notice is posted iff there is no data. No post is made (the loop ends) iff there is data but the member list is missing. |
| Jobs.RoomPosts | jobs.py:46-71 | One outcome per configured room, in order. |
| Jobs.DigestPostsComplete | jobs.py:46-71 | When every member list is available, each configured room gets exactly its post, in order. |
| Jobs.DigestPostsTargets | jobs.py:46-71 | At most one post per configured room, and every post goes to a configured room. |
| Jobs.DigestTop | jobs.py:50 | At most 5 rows, non-increasing by count, all of that room and date. |
| Jobs.DigestNameFallback | jobs.py:67 | A user missing from the member list is shown as `ユーザーID:<id>`. |
| Jobs.DigestMessage | jobs.py:61-68 | The accumulating loop produces the header followed by the numbered lines. |
| Jobs.DigestList | jobs.py:64-68 | The loop concatenates one numbered line per ranked row. |
| Jobs.RankingPostJob | jobs.py:32-74 | With no configured rooms, or no store, nothing is posted. Otherwise the posts are the per-room digests, in room order. |
| MainCommands.SorryArgumentOf | commands/main_commands.py:20 | `/sorry ` followed by a decimal number captures that number. |
| MainCommands.SorryWithoutNumber | commands/main_commands.py:20-23 | `/sorry` without a digit run after it does not match. |
| MainCommands.WithoutViewer | commands/main_commands.py:26-27 | Deletes exactly the user's entries. It shortens the list iff the user was in it. |
| MainCommands.SorryCommand | commands/main_commands.py:19-32 | Without a match, it posts the usage and changes nothing. With the store unavailable, it posts the error. Otherwise it removes the user and says whether any entry was deleted. The effect is stated as `MainCommands.SorryEffect`. |
| MainCommands.SayReplyOf | commands/main_commands.py:57-62 | `/say text` posts the text, or the usage when the text is blank. |
| MainCommands.SayBare | commands/main_commands.py:58 | A bare `/say` has no `/say ` to replace and is posted as it is. |
| MainCommands.EchoReplyOf | commands/main_commands.py:104-109 | `/echo text` replies with the stripped text, or the usage when it is blank. |
| MainCommands.SayCommand | commands/main_commands.py:57-62 | Posts exactly the reply the body determines. |
| MainCommands.EchoCommand | commands/main_commands.py:104-109 | Posts exactly the reply the body determines. |
| MainCommands.TimerArgumentsOf | commands/main_commands.py:112 | `/timer n task` captures n and the task text. |
| MainCommands.TimerRepliesProperties | commands/main_commands.py:113-124 | There are two posts iff the command matches with a positive duration. The second is the elapsed notice naming the duration and the task. |
| MainCommands.TimerCommand | commands/main_commands.py:111-128 | Appends exactly those replies to the room, in order (`MainCommands.TimerEffect`). |
| MainCommands.UnitMatchWholeRun | commands/main_commands.py:131-132 | The leftmost unit match starts at the beginning of a digit run, never in its middle. |
| MainCommands.UnitFound | commands/main_commands.py:131-132 | `/時報 n` followed by the unit letter captures n. |
| MainCommands.UnitMissing | commands/main_commands.py:131-132 | Another unit letter does not match that body. |
| MainCommands.UnitFormParts | commands/main_commands.py:131-149 | `/時報 nh` matches the hour form only, and contains neither `/時報 OK` nor `/時報 NO`. |
| MainCommands.IntervalForms | commands/main_commands.py:149-152 | `/時報 nh` asks for n hours and 0 minutes. `/時報 nm` asks for 0 hours and n minutes. |
| MainCommands.DisableProperties | commands/main_commands.py:145 | Disabling removes the room's rows and keeps every other room's, preserving one row per room. |
| MainCommands.SetIntervalProperties | commands/main_commands.py:157-159 | The update sets the interval on exactly the room's rows. Otherwise the update inserts. One row per room is preserved. |
| MainCommands.TimeReportCommand | commands/main_commands.py:130-164 | The branch order is OK, NO, then the h/m forms. OK inserts an interval of 60 only when the room has no row. NO deletes the room's rows. A total of 0 is rejected with no write. A positive total updates the existing row or else inserts one. Exactly one reply is posted. The effect is stated as `MainCommands.TimeReportEffect`. |
| MainCommands.DrawsOf | commands/main_commands.py:187 | Holds exactly the user's history rows. |
| MainCommands.DrawMarksToday | commands/main_commands.py:197-201 | After a draw, the user counts as having drawn today. |
| MainCommands.DrawKeepsOthers | commands/main_commands.py:197-201 | A draw leaves every other user's history rows unchanged. |
| MainCommands.DrawKeepsOneRow | commands/main_commands.py:198-201 | With at most one row per user before a draw (update or insert), there is still at most one after. |
| MainCommands.FortuneWeights | commands/main_commands.py:195 | The outcome list has 100 entries, weighted 10/20/30/20/10/5/5. |
| MainCommands.FortuneTable | commands/main_commands.py:195-196 | Entry k of the list is `Fortune(k)`, the fortune the draw picks. |
| MainCommands.OmikujiCommand | commands/main_commands.py:184-204 | With the store unavailable, it posts the error. A second draw on the same day is refused and writes nothing. Otherwise it records today (update or insert) and posts the picked fortune. The effect is stated as `MainCommands.OmikujiEffect`. |
| MainCommands.FindDate | commands/main_commands.py:211-215 | A found position holds a `YYYY/MM/DD` form. |
| MainCommands.FirstRun | commands/main_commands.py:216 | A found position starts with a digit. |
| MainCommands.DateAfterCommand | commands/main_commands.py:213-215 | A date right after `/ranking ` is found there. |
| MainCommands.DateAfterNumber | commands/main_commands.py:213-215 | A date after a room number is found after it. |
| MainCommands.AsWrittenDateOnly | commands/main_commands.py:216-220 | As written, `/ranking YYYY/MM/DD` targets room YYYY: the year run is compared with the whole slash-less date and differs. |
| MainCommands.AsWrittenExample | commands/main_commands.py:216-220 | As written, `/ranking 2025/08/21` targets room 2025. |
| MainCommands.TargetDateOnly | commands/main_commands.py:216-220 | Corrected: a date alone targets the current room. |
| MainCommands.TargetDateThenRoom | commands/main_commands.py:216-220 | Corrected: a date and then a room number targets that room. |
| MainCommands.TargetRoomThenDate | commands/main_commands.py:216-220 | Corrected: a room number and then a date targets that room. |
| MainCommands.IsoDate | commands/main_commands.py:223 | `YYYY/MM/DD` becomes `YYYY-MM-DD` with the same digits. |
| MainCommands.FoundDate | commands/main_commands.py:213-215 | There is a date string iff a date form is found. It is then the ten characters at that position. |
| MainCommands.BadDateIff | commands/main_commands.py:221-228 | The date-format error is replied iff there is more than one token and a date form is found that is not a calendar date. |
| MainCommands.LeapDay | commands/main_commands.py:223 | 2024/02/29 parses as a date; 2025/02/29 does not. |
| MainCommands.SumBounds | commands/main_commands.py:240-247 | A day's count is at most the user's total in the room, which is at most the room's total. |
| MainCommands.Blocks | commands/main_commands.py:244-250 | One block per ranked row. |
| MainCommands.RankingFigures | commands/main_commands.py:229-250 | At most 10 rows, non-increasing by day count, each with day count ≤ user total ≤ room total. |
| MainCommands.RankingList | commands/main_commands.py:243-251 | The accumulating loop concatenates the blocks. |
| MainCommands.RankingCommand | commands/main_commands.py:206-254 | It raises exactly when `MainCommands.RankingRaises` holds. A bad date gets the format reply. With no store, the query raises. No rows gets the no-messages reply. A failed room-info request gets the room-info error, whatever the member fetch returned. A failed member fetch raises only once the room info was read, and posts nothing. Otherwise it posts the ranking text with the room name, or `取得失敗`, and the totals. The posts are stated as `MainCommands.RankingEffect`. |
| Queries.Selected | commands/main_commands.py:229 | Holds exactly the rows of that room and date. |
| Queries.TopShape | commands/main_commands.py:229 | `order desc` then `limit(n)`: at most n rows, non-increasing by count, and empty iff nothing matches (or n is 0). |
| Queries.TopMembers | commands/main_commands.py:229 | Every top row is a row of that room and date. |
| Queries.TopLargest | commands/main_commands.py:229 | A matching row left out of the top has a count no larger than any row kept. |
| Queries.NameIn | jobs.py:59 | The dict built from the member list finds a name iff some member has the id, and then it is the last such member's name. |
| Ranking.TallyProperties | services.py:129-133 | Accumulating into a dict keeps keys in first-appearance order, holds exactly the keys seen, and maps each to its sum. |
| Ranking.SortDescProperties | services.py:136 | The stable descending sort is ordered, a permutation, and keeps the input order among equal keys. |
| Ranking.TopProperties | jobs.py:50 | Taking n of the sorted rows gives min(n, size) rows, ordered, and none only for empty input or n = 0. |
| Text.JoinIdsRoundTrip | utils.py:107-109 | Comma-joining a list of ids and splitting it again gives back the list. |
| Text.Words | main.py:54 | `split()` yields non-empty tokens without whitespace, and none exactly for a blank string. |
| Text.Lower | main.py:54 | `lower()` maps each character and keeps the length. |
| Text.StripProperties | commands/main_commands.py:105 | `strip()` is empty iff the text is blank. Otherwise it neither starts nor ends with whitespace. |
| Text.ReplaceFirst | commands/main_commands.py:58 | `replace(p, r, 1)` changes only the first occurrence, and nothing when there is none. |
| Text.ContainsIff | handlers.py:218-229 | `p in s` holds iff p occurs at some position of s. |
| Text.ValueOfNatToString | commands/main_commands.py:24 | `int(str(n)) == n`. |
| Text.NatToStringInjective | services.py:131 | Distinct room ids give distinct string keys. |
| Endpoint.CommandOf | commands.py:6-29 | A handler found for a key is registered under that key. |
| Endpoint.TableRoundTrip | commands.py:6-29 | Every handler's key leads back to that handler. |
| Endpoint.CommandOfNone | commands.py:6-29 | A key finds no handler iff no handler is registered under it. |
| Endpoint.FirstWord | main.py:54 | The first token of `w + rest` is w when rest is empty or starts with whitespace. |
| Endpoint.CommandKey | main.py:54 | A key exists only for a present, non-blank body, and is never empty. |
| Endpoint.DispatchOfWord | main.py:54-58 | A body whose first word is w reaches the handler of w lower-cased. |
| Endpoint.DispatchOfKey | main.py:54-58 | A body starting with a handler's key reaches that handler. |
| Endpoint.DispatchIgnoresCase | main.py:54 | `/Ranking 2025/08/21` reaches the ranking handler. |
| Endpoint.RunCommand | main.py:57-58 | It raises iff the handler is the ranking handler and `MainCommands.RankingRaises` holds. Each modelled handler has the effect its own contract states: `/say` and `/echo` post their replies, and `/timer`, `/sorry`, `/時報`, `おみくじ`, `/ranking` and `/recount` satisfy their effect predicates. Each table changes only under its own handler. Handlers outside the model change neither the store nor the outbox. |
| Endpoint.EventHandler | main.py:30-67 | No JSON answers 400, and another event type answers 200, both without dispatch. A missing or blank body answers 500. Otherwise the table handler, if any, runs with the effect its own contract states. The answer is 200, except that `/ranking` answers 500 exactly when `MainCommands.RankingRaises` holds. Each table changes only under its own handler. |

## Left out

- The Chatwork API and every HTTP call are not modelled. A post is an entry of the outbox, and an answer (member list, fetched messages, room name) is an input. `None` stands for a call that raised.
- Handler replies are posts of abstract notice kinds rather than the Japanese texts, except the ranking texts, which are built as strings. The reply header `send_message` adds to a handler's post is modelled once, in `Services.MessagePayload`, and not repeated on every post.
- The Supabase client and its query builder are not modelled; each table is a field of `Db.Store`. Exceptions from store calls are modelled where the code branches on them:
  - the count write, the mark write, the reset and the room-name upsert (each an input saying whether it succeeds);
  - the queries in `/ranking`;
  - the store being unavailable.
  Other store failures are not modelled.
- The clock, the Tokyo timezone and the date arithmetic for "yesterday" are left out. Dates are ISO strings given as inputs, and so is the current minute.
- `random.choice` is left out; the pick is an input, reduced modulo 100.
- Flask, `jsonify` and request parsing are left out. The request is an optional record of the fields the endpoint reads.
- The JSON parse of the message body for the mention is left out; its outcome is the input `Handlers.MentionField`.
- `time.sleep` in `/timer` is not modelled. Both timer posts appear in order.
- Concurrency is not modelled: races between the read and the write of the message counter, and the scheduler.
- The other command handlers (`/test`, `/roominfo`, `/weather`, `/whoami`, `/削除`, `/quote`, `/news`, `/info`, `/wiki`, `/coin`, `/translate`, `/reminder`, `/log`, `/stats`) are only dispatched; their bodies lie outside the modelled core. That includes the weather lookup, the news and Wikipedia calls and the psutil float figures.
- Code that is broken is modelled by its evident intent, not by the crash:
  - the wrong imports of `COMMANDS` (main.py:9-11) and the table that `commands.py` defines;
  - the undefined `send_reply`, `timezone` and `timedelta`;
  - awaiting a synchronous member fetch (utils.py:81).
- `Text.Lower` lower-cases ASCII letters only, and the digit scanner knows the ASCII digits only. Python's Unicode case mapping and its `\d` class are wider. The whitespace test `Text.IsSpace` is the full set of characters for which Python's `str.isspace()` holds, which `str.split()`, `str.strip()` and `\s` use.
- MainCommands.RankingCommand takes its target room from the corrected `MainCommands.Target`, not the as-written rule (see "## Findings"), so `/ranking 2025/08/21` ranks the current room here.
- Queries.TopShape: `Queries.Top` and `Ranking.SortDesc` keep table order among rows with equal counts. The store's `order(..., desc=True)` leaves that order open, so the numbering of tied rows, and which of them the cut at 5 or 10 keeps, may differ. This affects Jobs.RankingPostJob, MainCommands.RankingCommand and Services.PostPersonalRanking.
- MainCommands.SorryCommand, MainCommands.TimeReportCommand and MainCommands.OmikujiCommand post one notice kind, `DatabaseUnavailable`, for every store failure. The source's texts differ by handler and by step (commands/main_commands.py:32, 142, 148, 162, 190, 204) and include the exception's message.
- Utils.IdsWithRoleDistinct, Utils.IdsWithRoleOrder, Utils.PartitionPlacement and Utils.TargetPlaced assume unique account ids in the member list. The Chatwork API guarantees this, but the code does not check it.
- Jobs.TimeReportJob: an interval of 0 raises `ZeroDivisionError` inside the loop, and the job's handler ends it. The model stops posting there rather than modelling the exception.
- Jobs.RankingPostJob: a member fetch that raises ends the loop, and the rooms after it get nothing. This is modelled by the room's absence from the member map.
- Services.UpdateMessageCountInDb does not deduplicate message id 0, because the source's `last_id and ...` treats a stored 0 as "no mark". This is stated by `Services.ZeroIdCountedTwice` rather than corrected.
- The ranking command's room search uses the `\d+` scanner on the raw body. The date validity test is done by the model's own calendar (leap years, month lengths) in place of `strptime`.

## Findings

| source | as written | input that shows it | evidently intended | confidence | as-written member | corrected member |
|---|---|---|---|---|---|---|
| commands/main_commands.py:216-220 | The room argument is the first digit run of the body. That run is dropped only when it equals the whole date with its slashes removed. | `/ranking 2025/08/21`: the first run `2025` differs from `20250821`, so the ranking of room 2025 is asked for. | A date alone ranks the current room. A room number before or after the date is taken as the room. | not executed | MainCommands.AsWrittenTarget, MainCommands.AsWrittenExample | MainCommands.Target, MainCommands.TargetDateOnly |
