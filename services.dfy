/**
 * The services layer: the message counter with its per-account high-water mark, the
 * per-room daily aggregation and its reset, the personal ranking, the readonly registry,
 * the room-info table, and the payloads the bot sends to the chat platform.
 */
module Services {
  import opened Wrappers
  import opened Text
  import opened Ranking
  import opened Db

  // ---------------------------------------------------------------------------
  // Message payloads
  // ---------------------------------------------------------------------------

  /** Python truthiness of an optional id: `None` and `0` are false. */
  predicate Truthy(o: Option<nat>) {
    o.Some? && o.value != 0
  }

  /** The quote header that makes a message a reply to message `message` by `account`. */
  function ReplyHeader(account: nat, room: string, message: nat): string {
    "[rp aid=" + NatToString(account) + " to=" + room + "-" + NatToString(message) + "]\n"
  }

  /**
   * The body `send_message` posts: the header comes first exactly when both reply ids
   * are truthy, and the message body always comes last, unchanged.
   */
  function MessagePayload(room: string, body: string, replyTo: Option<nat>, replyMessage: Option<nat>): (p: string)
    ensures !(Truthy(replyTo) && Truthy(replyMessage)) ==> p == body
    ensures Truthy(replyTo) && Truthy(replyMessage) ==> |p| > |body| && p[0] == '['
  {
    if Truthy(replyTo) && Truthy(replyMessage) then
      ReplyHeader(replyTo.value, room, replyMessage.value) + body
    else body
  }

  /** The parts of a quoted reply. */
  datatype Quote = Quote(account: nat, room: nat, message: nat, body: string)

  /** Reads a reply header back: the inverse of `MessagePayload` on a numeric room. */
  function ParseQuote(s: string): Option<Quote> {
    match Expect(s, "[rp aid=")
    case None => None
    case Some(rest) => ParseAccount(rest)
  }

  function ParseAccount(s: string): Option<Quote> {
    match ReadNumber(s)
    case None => None
    case Some(p) =>
      match Expect(p.1, " to=")
      case None => None
      case Some(rest) => ParseRoom(p.0, rest)
  }

  function ParseRoom(account: nat, s: string): Option<Quote> {
    match ReadNumber(s)
    case None => None
    case Some(p) =>
      match Expect(p.1, "-")
      case None => None
      case Some(rest) => ParseMessage(account, p.0, rest)
  }

  function ParseMessage(account: nat, room: nat, s: string): Option<Quote> {
    match ReadNumber(s)
    case None => None
    case Some(p) =>
      match Expect(p.1, "]\n")
      case None => None
      case Some(rest) => Some(Quote(account, room, p.0, rest))
  }

  /** A reply's payload names the account, room and message it quotes, and carries the body unchanged. */
  lemma ReplyRoundTrip(account: nat, room: nat, message: nat, body: string)
    requires account != 0 && message != 0
    ensures ParseQuote(MessagePayload(NatToString(room), body, Some(account), Some(message)))
            == Some(Quote(account, room, message, body))
  {
    var a, r, m := NatToString(account), NatToString(room), NatToString(message);
    var t1 := " to=" + (r + ("-" + (m + ("]\n" + body))));
    PayloadShape(account, room, message, body);
    ParseQuotePrefix(a, t1);
    ParseAccountOf(account, room, message, body);
  }

  lemma PayloadShape(account: nat, room: nat, message: nat, body: string)
    requires account != 0 && message != 0
    ensures MessagePayload(NatToString(room), body, Some(account), Some(message)) ==
            "[rp aid=" + (NatToString(account) + (" to=" + (NatToString(room) + ("-" + (NatToString(message) + ("]\n" + body))))))
  {
    var a, r, m := NatToString(account), NatToString(room), NatToString(message);
    var h2 := "[rp aid=" + a + " to=";
    var h4 := h2 + r + "-";
    AppendAssoc(h4 + m, "]\n", body);
    AppendAssoc(h4, m, "]\n" + body);
    AppendAssoc(h2 + r, "-", m + ("]\n" + body));
    AppendAssoc(h2, r, "-" + (m + ("]\n" + body)));
    AppendAssoc("[rp aid=" + a, " to=", r + ("-" + (m + ("]\n" + body))));
    AppendAssoc("[rp aid=", a, " to=" + (r + ("-" + (m + ("]\n" + body)))));
  }

  lemma ParseQuotePrefix(a: string, t: string)
    ensures ParseQuote("[rp aid=" + (a + t)) == ParseAccount(a + t)
  {
    ExpectOf("[rp aid=", a + t);
  }

  lemma ParseAccountOf(account: nat, room: nat, message: nat, body: string)
    ensures var t1 := " to=" + (NatToString(room) + ("-" + (NatToString(message) + ("]\n" + body))));
            ParseAccount(NatToString(account) + t1) == Some(Quote(account, room, message, body))
  {
    var r, m := NatToString(room), NatToString(message);
    ParseRoomOf(account, room, message, body);
    var t1 := " to=" + (r + ("-" + (m + ("]\n" + body))));
    ReadNumberOf(account, t1);
    ExpectOf(" to=", r + ("-" + (m + ("]\n" + body))));
  }

  lemma ParseRoomOf(account: nat, room: nat, message: nat, body: string)
    ensures var t2 := "-" + (NatToString(message) + ("]\n" + body));
            ParseRoom(account, NatToString(room) + t2) == Some(Quote(account, room, message, body))
  {
    var m := NatToString(message);
    ParseMessageOf(account, room, message, body);
    ReadNumberOf(room, "-" + (m + ("]\n" + body)));
    ExpectOf("-", m + ("]\n" + body));
  }

  lemma ParseMessageOf(account: nat, room: nat, message: nat, body: string)
    ensures ParseMessage(account, room, NatToString(message) + ("]\n" + body)) == Some(Quote(account, room, message, body))
  {
    ReadNumberOf(message, "]\n" + body);
    ExpectOf("]\n", body);
  }

  /** The form fields of a bulk role change. */
  datatype RolePayload = RolePayload(admins: string, members: string, readonly: string)

  /** `change_room_permissions`: each field is its list's ids, comma-joined, and reads back as that list. */
  function PermissionsPayload(admins: seq<nat>, members: seq<nat>, readonly: seq<nat>): (p: RolePayload)
    ensures ParseIds(p.admins) == Some(admins)
    ensures ParseIds(p.members) == Some(members)
    ensures ParseIds(p.readonly) == Some(readonly)
  {
    JoinIdsRoundTrip(admins);
    JoinIdsRoundTrip(members);
    JoinIdsRoundTrip(readonly);
    RolePayload(JoinIds(admins), JoinIds(members), JoinIds(readonly))
  }

  // ---------------------------------------------------------------------------
  // Bot administrator check
  // ---------------------------------------------------------------------------

  /** Some member's account id, as a string, is `botId` and that member's role is `admin`. */
  function AnyBotAdmin(members: seq<Member>, botId: string): (r: bool)
    ensures r <==> exists i :: 0 <= i < |members| && NatToString(members[i].account) == botId && members[i].role == "admin"
  {
    if members == [] then false
    else
      (NatToString(members[0].account) == botId && members[0].role == "admin") || AnyBotAdmin(members[1..], botId)
  }

  /**
   * `is_bot_admin`: the member list could be fetched (`None` when the request failed),
   * is non-empty, and lists the bot with role `admin`.
   */
  function IsBotAdmin(members: Option<seq<Member>>, botId: string): (r: bool)
    ensures r <==> members.Some? &&
                   (exists i :: 0 <= i < |members.value| &&
                      NatToString(members.value[i].account) == botId && members.value[i].role == "admin")
  {
    members.Some? && |members.value| > 0 && AnyBotAdmin(members.value, botId)
  }

  // ---------------------------------------------------------------------------
  // Message counter
  // ---------------------------------------------------------------------------

  /**
   * The high-water-mark test: a message is counted unless a truthy last id is stored for
   * the account and the message id does not exceed it.
   */
  predicate Accepts(marks: map<nat, nat>, account: nat, messageId: nat) {
    account !in marks || marks[account] == 0 || messageId > marks[account]
  }

  predicate Matches(row: CountRow, room: nat, date: Date, account: nat) {
    row.room == room && row.date == date && row.account == account
  }

  /** The first row of the (room, date, account) key, which the select returns first. */
  function FindRow(rows: seq<CountRow>, room: nat, date: Date, account: nat): (r: Option<nat>)
    ensures r.Some? ==> r.value < |rows| && Matches(rows[r.value], room, date, account)
    ensures r.Some? ==> forall j :: 0 <= j < r.value ==> !Matches(rows[j], room, date, account)
    ensures r.None? ==> forall j :: 0 <= j < |rows| ==> !Matches(rows[j], room, date, account)
  {
    if rows == [] then None
    else if Matches(rows[0], room, date, account) then Some(0)
    else
      match FindRow(rows[1..], room, date, account)
      case None => None
      case Some(k) => Some(k + 1)
  }

  /** The count stored for a key; 0 when no row exists. */
  function CountAt(rows: seq<CountRow>, room: nat, date: Date, account: nat): nat {
    match FindRow(rows, room, date, account)
    case Some(i) => rows[i].count
    case None => 0
  }

  /** The count write: the key's first row gets one more, or a row with count 1 is inserted. */
  function Bump(rows: seq<CountRow>, room: nat, date: Date, account: nat, name: string): seq<CountRow> {
    match FindRow(rows, room, date, account)
    case Some(i) => rows[i := rows[i].(count := rows[i].count + 1)]
    case None => rows + [CountRow(room, date, account, name, 1)]
  }

  /** At most one row per (room, date, account) key. */
  predicate CountsUnique(rows: seq<CountRow>) {
    forall i, j :: 0 <= i < j < |rows| ==>
      !Matches(rows[j], rows[i].room, rows[i].date, rows[i].account)
  }

  /** An existing key's row is incremented by exactly one and no other row changes. */
  lemma BumpExisting(rows: seq<CountRow>, room: nat, date: Date, account: nat, name: string, i: nat)
    requires FindRow(rows, room, date, account) == Some(i)
    ensures |Bump(rows, room, date, account, name)| == |rows|
    ensures Bump(rows, room, date, account, name)[i] == rows[i].(count := rows[i].count + 1)
    ensures forall j :: 0 <= j < |rows| && j != i ==> Bump(rows, room, date, account, name)[j] == rows[j]
  {
  }

  /** A new key gets exactly one new row, with count 1 and the sender's name, at the end. */
  lemma BumpNew(rows: seq<CountRow>, room: nat, date: Date, account: nat, name: string)
    requires FindRow(rows, room, date, account).None?
    ensures Bump(rows, room, date, account, name) == rows + [CountRow(room, date, account, name, 1)]
  {
  }

  /** The key's count grows by exactly one and every other key's count stays. */
  lemma {:induction false} BumpCounts(rows: seq<CountRow>, room: nat, date: Date, account: nat, name: string)
    ensures CountAt(Bump(rows, room, date, account, name), room, date, account) == CountAt(rows, room, date, account) + 1
    ensures forall r, d, a :: !(r == room && d == date && a == account) ==>
              CountAt(Bump(rows, room, date, account, name), r, d, a) == CountAt(rows, r, d, a)
  {
    var b := Bump(rows, room, date, account, name);
    match FindRow(rows, room, date, account)
    case Some(i) =>
      assert |b| == |rows|;
      forall j | 0 <= j < |rows| ensures Matches(b[j], room, date, account) <==> Matches(rows[j], room, date, account) {
      }
      assert FindRow(b, room, date, account) == Some(i) by {
        FirstFromUnique(b, room, date, account, i);
      }
      forall r, d, a | !(r == room && d == date && a == account)
        ensures CountAt(b, r, d, a) == CountAt(rows, r, d, a)
      {
        SameMatches(rows, b, r, d, a);
      }
    case None =>
      assert b == rows + [CountRow(room, date, account, name, 1)];
      FirstFromUnique(b, room, date, account, |rows|);
      forall r, d, a | !(r == room && d == date && a == account)
        ensures CountAt(b, r, d, a) == CountAt(rows, r, d, a)
      {
        AppendOther(rows, CountRow(room, date, account, name, 1), r, d, a);
      }
  }

  /** `FindRow` is the first matching index. */
  lemma FirstFromUnique(rows: seq<CountRow>, room: nat, date: Date, account: nat, i: nat)
    requires i < |rows| && Matches(rows[i], room, date, account)
    requires forall j :: 0 <= j < i ==> !Matches(rows[j], room, date, account)
    ensures FindRow(rows, room, date, account) == Some(i)
  {
  }

  /**
   * Two tables that agree on every row except one row of some other key, which keeps its
   * key, give the same count for key (r, d, a).
   */
  lemma SameMatches(rows: seq<CountRow>, b: seq<CountRow>, r: nat, d: Date, a: nat)
    requires |b| == |rows|
    requires forall j :: 0 <= j < |rows| ==>
               (b[j] == rows[j] || (!Matches(rows[j], r, d, a) && !Matches(b[j], r, d, a)))
    ensures CountAt(b, r, d, a) == CountAt(rows, r, d, a)
  {
    match FindRow(rows, r, d, a)
    case Some(i) =>
      assert b[i] == rows[i];
      FirstFromUnique(b, r, d, a, i);
    case None =>
      assert forall j :: 0 <= j < |b| ==> !Matches(b[j], r, d, a);
  }

  lemma AppendOther(rows: seq<CountRow>, x: CountRow, r: nat, d: Date, a: nat)
    requires !Matches(x, r, d, a)
    ensures CountAt(rows + [x], r, d, a) == CountAt(rows, r, d, a)
  {
    var b := rows + [x];
    match FindRow(rows, r, d, a)
    case Some(i) =>
      FirstFromUnique(b, r, d, a, i);
    case None =>
      assert forall j :: 0 <= j < |b| ==> !Matches(b[j], r, d, a) by {
        forall j | 0 <= j < |b| ensures !Matches(b[j], r, d, a) {
          if j < |rows| { assert b[j] == rows[j]; }
        }
      }
  }

  /** The count write keeps at most one row per key. */
  lemma BumpKeepsUnique(rows: seq<CountRow>, room: nat, date: Date, account: nat, name: string)
    requires CountsUnique(rows)
    ensures CountsUnique(Bump(rows, room, date, account, name))
  {
    match FindRow(rows, room, date, account)
    case Some(i) =>
    case None =>
      var b := rows + [CountRow(room, date, account, name, 1)];
      forall i, j | 0 <= i < j < |b| ensures !Matches(b[j], b[i].room, b[i].date, b[i].account) {
        if j == |rows| {
          assert !Matches(rows[i], room, date, account);
        }
      }
  }

  /** The counter's two tables: `message_counts` and `last_message_ids`. */
  datatype Counter = Counter(rows: seq<CountRow>, marks: map<nat, nat>)

  /**
   * One delivery of a message when every store call succeeds: a rejected message changes
   * nothing; an accepted one is counted and then its id becomes the account's mark.
   */
  function Deliver(c: Counter, room: nat, date: Date, account: nat, name: string, messageId: nat): (r: Counter)
    ensures !Accepts(c.marks, account, messageId) ==> r == c
    ensures Accepts(c.marks, account, messageId) ==>
              r.rows == Bump(c.rows, room, date, account, name) && r.marks == c.marks[account := messageId]
  {
    if Accepts(c.marks, account, messageId) then
      Counter(Bump(c.rows, room, date, account, name), c.marks[account := messageId])
    else c
  }

  /** A message whose id is not above a truthy stored mark leaves both tables unchanged. */
  lemma RejectsRedelivery(c: Counter, room: nat, date: Date, account: nat, name: string, messageId: nat)
    requires account in c.marks && c.marks[account] != 0 && messageId <= c.marks[account]
    ensures Deliver(c, room, date, account, name, messageId) == c
  {
  }

  /** With no stored mark, or a falsy `0`, the message is always counted. */
  lemma CountsWithoutMark(c: Counter, room: nat, date: Date, account: nat, name: string, messageId: nat)
    requires account !in c.marks || c.marks[account] == 0
    ensures Deliver(c, room, date, account, name, messageId).rows == Bump(c.rows, room, date, account, name)
    ensures CountAt(Deliver(c, room, date, account, name, messageId).rows, room, date, account)
            == CountAt(c.rows, room, date, account) + 1
  {
    BumpCounts(c.rows, room, date, account, name);
  }

  /** Delivering the same message twice counts it once (for a non-zero id). */
  lemma DeliverIdempotent(c: Counter, room: nat, date: Date, account: nat, name: string, messageId: nat)
    requires messageId != 0
    ensures var once := Deliver(c, room, date, account, name, messageId);
            Deliver(once, room, date, account, name, messageId) == once
  {
  }

  /** Message id 0 is falsy as a mark, so the same id-0 message is counted on every delivery. */
  lemma ZeroIdCountedTwice(c: Counter, room: nat, date: Date, account: nat, name: string)
    requires Accepts(c.marks, account, 0)
    ensures var twice := Deliver(Deliver(c, room, date, account, name, 0), room, date, account, name, 0);
            CountAt(twice.rows, room, date, account) == CountAt(c.rows, room, date, account) + 2
  {
    var once := Deliver(c, room, date, account, name, 0);
    BumpCounts(c.rows, room, date, account, name);
    BumpCounts(once.rows, room, date, account, name);
  }

  /** Ids 5, 3, 5, 7 from a fresh account: 3 and the second 5 are ignored; the count is 2 and the mark 7. */
  lemma OutOfOrderExample(rows: seq<CountRow>, room: nat, date: Date, account: nat, name: string)
    requires CountAt(rows, room, date, account) == 0
    ensures var c0 := Counter(rows, map[]);
            var c1 := Deliver(c0, room, date, account, name, 5);
            var c2 := Deliver(c1, room, date, account, name, 3);
            var c3 := Deliver(c2, room, date, account, name, 5);
            var c4 := Deliver(c3, room, date, account, name, 7);
            CountAt(c4.rows, room, date, account) == 2 && c4.marks == map[account := 7]
  {
    var c0 := Counter(rows, map[]);
    var c1 := Deliver(c0, room, date, account, name, 5);
    BumpCounts(rows, room, date, account, name);
    var c4 := Deliver(c1, room, date, account, name, 7);
    BumpCounts(c1.rows, room, date, account, name);
    assert c1.marks[account := 7] == map[account := 7];
  }

  /**
   * The two tables after `update_message_count_in_db`, given which store writes go through:
   * with every write succeeding this is one `Deliver`; without the count write nothing
   * changes; and the mark never moves unless its own write succeeds.
   */
  function CountAfter(connected: bool, c: Counter, room: nat, date: Date, account: nat, name: string,
                      messageId: nat, countWriteOk: bool, markWriteOk: bool): (r: Counter)
    ensures connected && countWriteOk && markWriteOk ==> r == Deliver(c, room, date, account, name, messageId)
    ensures !connected || !countWriteOk ==> r == c
    ensures !markWriteOk ==> r.marks == c.marks
    ensures r.rows == c.rows || r.rows == Bump(c.rows, room, date, account, name)
  {
    if connected && Accepts(c.marks, account, messageId) && countWriteOk then
      Counter(Bump(c.rows, room, date, account, name),
              if markWriteOk then c.marks[account := messageId] else c.marks)
    else c
  }

  /** `get_last_message_id`: the stored mark, or `None` without a database or a row. */
  function GetLastMessageId(db: Store, account: nat): (r: Option<nat>)
    reads db
    ensures r.Some? <==> db.connected && account in db.lastMessageIds
    ensures r.Some? ==> r.value == db.lastMessageIds[account]
  {
    if db.connected && account in db.lastMessageIds then Some(db.lastMessageIds[account]) else None
  }

  /** `update_last_message_id`: the upsert; `writeOk` is false when the store call raises. */
  method UpdateLastMessageId(db: Store, account: nat, messageId: nat, writeOk: bool) returns (ok: bool)
    modifies db`lastMessageIds
    ensures ok <==> db.connected && writeOk
    ensures db.lastMessageIds == if ok then old(db.lastMessageIds)[account := messageId] else old(db.lastMessageIds)
  {
    if !db.connected || !writeOk {
      return false;
    }
    db.lastMessageIds := db.lastMessageIds[account := messageId];
    return true;
  }

  /**
   * `update_message_count_in_db`. `countWriteOk` is false when the select, update or insert
   * on the count table raises; `markWriteOk` is false when the later upsert of the mark raises.
   * The mark only moves after the count write went through.
   */
  method UpdateMessageCountInDb(db: Store, room: nat, date: Date, account: nat, name: string, messageId: nat,
                                countWriteOk: bool, markWriteOk: bool)
    modifies db`messageCounts, db`lastMessageIds
    ensures Counter(db.messageCounts, db.lastMessageIds) ==
            CountAfter(db.connected, old(Counter(db.messageCounts, db.lastMessageIds)),
                       room, date, account, name, messageId, countWriteOk, markWriteOk)
  {
    if !db.connected {
      return;
    }
    var last := GetLastMessageId(db, account);
    if last.Some? && last.value != 0 && messageId <= last.value {
      return;
    }
    if !countWriteOk {
      return;
    }
    var found := FindRow(db.messageCounts, room, date, account);
    if found.Some? {
      var row := db.messageCounts[found.value];
      db.messageCounts := db.messageCounts[found.value := row.(count := row.count + 1)];
    } else {
      db.messageCounts := db.messageCounts + [CountRow(room, date, account, name, 1)];
    }
    var _ := UpdateLastMessageId(db, account, messageId, markWriteOk);
  }

  // ---------------------------------------------------------------------------
  // Daily per-room aggregation
  // ---------------------------------------------------------------------------

  /** The rows of one date, in table order (the select's `eq("date", ...)`). */
  function RowsOn(rows: seq<CountRow>, date: Date): (r: seq<CountRow>)
    ensures forall x :: x in r <==> x in rows && x.date == date
  {
    if rows == [] then []
    else RowsOn(rows[..|rows| - 1], date) + (if rows[|rows| - 1].date == date then [rows[|rows| - 1]] else [])
  }

  /** Each row as `(str(room_id), message_count)`. */
  function RoomEntries(rows: seq<CountRow>): (es: seq<(string, int)>)
    ensures |es| == |rows|
    ensures forall i :: 0 <= i < |rows| ==> es[i] == (NatToString(rows[i].room), rows[i].count as int)
  {
    seq(|rows|, (i: nat) requires i < |rows| => (NatToString(rows[i].room), rows[i].count as int))
  }

  /** The total count of room `room` on `date`. */
  function RoomTotal(rows: seq<CountRow>, date: Date, room: nat): int {
    if rows == [] then 0
    else
      var last := rows[|rows| - 1];
      RoomTotal(rows[..|rows| - 1], date, room) + (if last.date == date && last.room == room then last.count else 0)
  }

  /** The per-room totals for a date, in the order the rooms first appear (the dict before sorting). */
  function RoomTotals(rows: seq<CountRow>, date: Date): seq<(string, int)> {
    var es := RoomEntries(RowsOn(rows, date));
    TallyWellFormed(es);
    Items(TallyOf(es))
  }

  /** The per-room ranking for a date: the totals sorted by count, descending. */
  function RoomRanking(rows: seq<CountRow>, date: Date): seq<(string, int)> {
    SortDesc(RoomTotals(rows, date), Amount)
  }

  lemma {:induction false} RoomEntriesSum(rows: seq<CountRow>, date: Date, room: nat)
    ensures SumFor(RoomEntries(RowsOn(rows, date)), NatToString(room)) == RoomTotal(rows, date, room)
  {
    if rows != [] {
      var p := rows[..|rows| - 1];
      var last := rows[|rows| - 1];
      RoomEntriesSum(p, date, room);
      var es := RoomEntries(RowsOn(rows, date));
      if last.date == date {
        assert RowsOn(rows, date) == RowsOn(p, date) + [last];
        assert es[..|es| - 1] == RoomEntries(RowsOn(p, date));
        NatToStringInjective(last.room, room);
      } else {
        assert RowsOn(rows, date) == RowsOn(p, date);
      }
    }
  }

  lemma RoomKeysIn(rows: seq<CountRow>, date: Date, k: string)
    ensures k in Keys(RoomEntries(RowsOn(rows, date))) <==>
            exists room :: NatToString(room) == k && RoomOn(rows, date, room)
  {
    if k in Keys(RoomEntries(RowsOn(rows, date))) {
      KeyHasRoom(rows, date, k);
    }
    if exists room :: NatToString(room) == k && RoomOn(rows, date, room) {
      var room :| NatToString(room) == k && RoomOn(rows, date, room);
      RoomHasKey(rows, date, room);
    }
  }

  lemma KeyHasRoom(rows: seq<CountRow>, date: Date, k: string)
    requires k in Keys(RoomEntries(RowsOn(rows, date)))
    ensures exists room :: NatToString(room) == k && RoomOn(rows, date, room)
  {
    var on := RowsOn(rows, date);
    var ks := Keys(RoomEntries(on));
    var i := FirstIndex(ks, k);
    assert on[i] in on;
    var j :| 0 <= j < |rows| && rows[j] == on[i];
    assert NatToString(on[i].room) == k && RoomOn(rows, date, on[i].room);
  }

  lemma RoomHasKey(rows: seq<CountRow>, date: Date, room: nat)
    requires RoomOn(rows, date, room)
    ensures NatToString(room) in Keys(RoomEntries(RowsOn(rows, date)))
  {
    var on := RowsOn(rows, date);
    var ks := Keys(RoomEntries(on));
    var j :| 0 <= j < |rows| && rows[j].date == date && rows[j].room == room;
    assert rows[j] in on;
    var i :| 0 <= i < |on| && on[i] == rows[j];
    assert ks[i] == NatToString(room);
  }

  /** Room `room` has at least one row on `date`. */
  predicate RoomOn(rows: seq<CountRow>, date: Date, room: nat) {
    exists j :: 0 <= j < |rows| && rows[j].date == date && rows[j].room == room
  }

  /**
   * Every total for `date` is keyed by the id, as a string, of a room that has rows on that
   * date, and holds the sum of that room's counts.
   */
  lemma RoomTotalsSound(rows: seq<CountRow>, date: Date)
    ensures forall e :: e in RoomTotals(rows, date) ==>
              exists room :: NatToString(room) == e.0 && RoomOn(rows, date, room) && e.1 == RoomTotal(rows, date, room)
  {
    var es := RoomEntries(RowsOn(rows, date));
    TallyWellFormed(es);
    TallyProperties(es);
    var items := RoomTotals(rows, date);
    forall e | e in items
      ensures exists room :: NatToString(room) == e.0 && RoomOn(rows, date, room) && e.1 == RoomTotal(rows, date, room)
    {
      var i :| 0 <= i < |items| && items[i] == e;
      assert e.0 in TallyOf(es).order;
      RoomKeysIn(rows, date, e.0);
      var room :| NatToString(room) == e.0 && RoomOn(rows, date, room);
      RoomEntriesSum(rows, date, room);
    }
  }

  /** Every room with rows on `date` has its total among the totals. */
  lemma RoomTotalsComplete(rows: seq<CountRow>, date: Date)
    ensures forall room :: RoomOn(rows, date, room) ==>
              (NatToString(room), RoomTotal(rows, date, room)) in RoomTotals(rows, date)
  {
    var es := RoomEntries(RowsOn(rows, date));
    TallyWellFormed(es);
    TallyProperties(es);
    DedupProperties(Keys(es));
    var t := TallyOf(es);
    var items := RoomTotals(rows, date);
    forall room | RoomOn(rows, date, room)
      ensures (NatToString(room), RoomTotal(rows, date, room)) in items
    {
      var k := NatToString(room);
      RoomKeysIn(rows, date, k);
      RoomEntriesSum(rows, date, room);
      assert k in t.order;
      var i :| 0 <= i < |t.order| && t.order[i] == k;
      assert items[i] == (k, RoomTotal(rows, date, room));
    }
  }

  /** The totals list each room once, in the order in which rooms first appear on that date. */
  lemma RoomTotalsOrder(rows: seq<CountRow>, date: Date)
    ensures Keys(RoomTotals(rows, date)) == Dedup(Keys(RoomEntries(RowsOn(rows, date))))
    ensures Distinct(Keys(RoomTotals(rows, date)))
  {
    var es := RoomEntries(RowsOn(rows, date));
    TallyWellFormed(es);
    TallyProperties(es);
    DedupProperties(Keys(es));
    assert Keys(RoomTotals(rows, date)) == TallyOf(es).order;
  }

  /**
   * The ranking is the totals ordered by count, descending; it holds exactly the totals,
   * and rooms with equal totals keep their first-appearance order.
   */
  lemma RoomRankingProperties(rows: seq<CountRow>, date: Date)
    ensures SortedDesc(RoomRanking(rows, date), Amount)
    ensures forall e :: e in RoomRanking(rows, date) <==> e in RoomTotals(rows, date)
    ensures |RoomRanking(rows, date)| == |RoomTotals(rows, date)|
    ensures forall c :: WithKey(RoomRanking(rows, date), Amount, c) == WithKey(RoomTotals(rows, date), Amount, c)
  {
    var items := RoomTotals(rows, date);
    SortDescProperties(items, Amount);
    var r := RoomRanking(rows, date);
    forall e ensures e in r <==> e in items {
      assert e in r <==> e in multiset(r);
    }
    assert |r| == |multiset(r)| == |multiset(items)| == |items|;
  }

  /**
   * `get_message_count_for_ranking`: fills the per-room dict row by row, then sorts its
   * items by count, descending. Without a database the result is empty.
   */
  method GetMessageCountForRanking(db: Store, date: Date) returns (ranking: seq<(string, int)>)
    ensures ranking == if db.connected then RoomRanking(db.messageCounts, date) else []
  {
    if !db.connected {
      return [];
    }
    var rows := RowsOn(db.messageCounts, date);
    var order, sums := TallyRooms(rows);
    TallyWellFormed(RoomEntries(rows));
    ranking := SortDesc(Items(Tally(order, sums)), Amount);
  }

  /** The loop of `get_message_count_for_ranking`: each row's count added to its room's total. */
  method TallyRooms(rows: seq<CountRow>) returns (order: seq<string>, sums: map<string, int>)
    ensures Tally(order, sums) == TallyOf(RoomEntries(rows))
  {
    ghost var es := RoomEntries(rows);
    order, sums := [], map[];
    var i := 0;
    while i < |rows|
      invariant 0 <= i <= |rows|
      invariant Tally(order, sums) == TallyOf(es[..i])
    {
      var key := NatToString(rows[i].room);
      var count := rows[i].count as int;
      TallyOfPrefix(es, i);
      if key in sums {
        sums := sums[key := sums[key] + count];
      } else {
        order := order + [key];
        sums := sums[key := count];
      }
      i := i + 1;
    }
    assert es[..i] == es;
  }

  /** Keeps the rows whose date is not `date`, in table order. */
  function WithoutDate(rows: seq<CountRow>, date: Date): (r: seq<CountRow>)
    ensures forall x :: x in r <==> x in rows && x.date != date
  {
    if rows == [] then []
    else WithoutDate(rows[..|rows| - 1], date) + (if rows[|rows| - 1].date != date then [rows[|rows| - 1]] else [])
  }

  /** Deleting one date's rows removes all of them and leaves every other date's rows, in order. */
  lemma {:induction false} WithoutDateProperties(rows: seq<CountRow>, date: Date)
    ensures RowsOn(WithoutDate(rows, date), date) == []
    ensures forall d :: d != date ==> RowsOn(WithoutDate(rows, date), d) == RowsOn(rows, d)
  {
    if rows != [] {
      var p := rows[..|rows| - 1];
      var last := rows[|rows| - 1];
      WithoutDateProperties(p, date);
      var w := WithoutDate(rows, date);
      if last.date != date {
        assert w == WithoutDate(p, date) + [last];
        assert w[..|w| - 1] == WithoutDate(p, date);
      } else {
        assert w == WithoutDate(p, date);
      }
    }
  }

  /** `reset_message_counts`; `writeOk` is false when the delete raises. */
  method ResetMessageCounts(db: Store, date: Date, writeOk: bool) returns (ok: bool)
    modifies db`messageCounts
    ensures ok <==> db.connected && writeOk
    ensures db.messageCounts == if ok then WithoutDate(old(db.messageCounts), date) else old(db.messageCounts)
  {
    if !db.connected || !writeOk {
      return false;
    }
    db.messageCounts := WithoutDate(db.messageCounts, date);
    return true;
  }

  // ---------------------------------------------------------------------------
  // Personal ranking
  // ---------------------------------------------------------------------------

  /** The rows of one room on one date, in table order. */
  function RowsOfRoom(rows: seq<CountRow>, room: nat, date: Date): (r: seq<CountRow>)
    ensures forall x :: x in r <==> x in rows && x.room == room && x.date == date
  {
    if rows == [] then []
    else
      var last := rows[|rows| - 1];
      RowsOfRoom(rows[..|rows| - 1], room, date) + (if last.room == room && last.date == date then [last] else [])
  }

  function RowCount(row: CountRow): int {
    row.count
  }

  function Total(rows: seq<CountRow>): nat {
    if rows == [] then 0 else rows[0].count + Total(rows[1..])
  }

  lemma {:induction false} TotalInsert(x: CountRow, s: seq<CountRow>)
    ensures Total(InsertDesc(x, s, RowCount)) == x.count + Total(s)
  {
    if s != [] && RowCount(s[0]) > RowCount(x) {
      TotalInsert(x, s[1..]);
      assert ([s[0]] + InsertDesc(x, s[1..], RowCount))[1..] == InsertDesc(x, s[1..], RowCount);
    } else if s != [] {
      assert ([x] + s)[1..] == s;
    }
  }

  /** Ordering the rows by count does not change their total. */
  lemma {:induction false} TotalSorted(s: seq<CountRow>)
    ensures Total(SortDesc(s, RowCount)) == Total(s)
  {
    if s != [] {
      TotalSorted(s[1..]);
      TotalInsert(s[0], SortDesc(s[1..], RowCount));
    }
  }

  /** `{i}位　{name}さん ({count}件)`. */
  function PersonalLine(rank: nat, row: CountRow): string {
    NatToString(rank) + "位　" + row.name + "さん (" + NatToString(row.count) + "件)"
  }

  function PersonalHeader(date: Date): string {
    "【" + date + " の個人メッセージ数ランキング】"
  }

  function PersonalFooter(total: nat): string {
    "合計コメント数: " + NatToString(total) + "件"
  }

  /** The lines of the personal ranking: the header, one numbered line per row, a blank part and the total. */
  function PersonalLines(date: Date, ranked: seq<CountRow>): (lines: seq<string>)
    ensures |lines| == |ranked| + 3
    ensures lines[0] == PersonalHeader(date)
    ensures forall i :: 0 <= i < |ranked| ==> lines[i + 1] == PersonalLine(i + 1, ranked[i])
    ensures lines[|ranked| + 1] == "\n" && lines[|ranked| + 2] == PersonalFooter(Total(ranked))
  {
    [PersonalHeader(date)] +
    seq(|ranked|, (i: nat) requires i < |ranked| => PersonalLine(i + 1, ranked[i])) +
    ["\n", PersonalFooter(Total(ranked))]
  }

  /**
   * The message `post_personal_ranking` sends: the room's ranking for `date`, rows ordered
   * by count, descending, numbered from 1, with the room's total count on the last line; a
   * notice instead when there is no database or no row.
   */
  function PersonalRankingPost(connected: bool, counts: seq<CountRow>, room: nat, date: Date): Post {
    var ranked := SortDesc(RowsOfRoom(counts, room, date), RowCount);
    Post(NatToString(room),
      if !connected then DatabaseUnavailable
      else if ranked == [] then NoDataForDate(date)
      else Text(Join(PersonalLines(date, ranked), "\n")))
  }

  /** `post_personal_ranking`: posts `PersonalRankingPost` to the room. */
  method PostPersonalRanking(db: Store, chat: Chat, room: nat, date: Date)
    modifies chat
    ensures chat.sent == old(chat.sent) + [PersonalRankingPost(db.connected, db.messageCounts, room, date)]
    ensures db.connected && RowsOfRoom(db.messageCounts, room, date) != [] ==>
              Total(SortDesc(RowsOfRoom(db.messageCounts, room, date), RowCount)) ==
              Total(RowsOfRoom(db.messageCounts, room, date))
  {
    var target := NatToString(room);
    var rows := RowsOfRoom(db.messageCounts, room, date);
    TotalSorted(rows);
    if !db.connected {
      chat.sent := chat.sent + [Post(target, DatabaseUnavailable)];
      return;
    }
    var ranked := SortDesc(rows, RowCount);
    if ranked == [] {
      chat.sent := chat.sent + [Post(target, NoDataForDate(date))];
      return;
    }
    var lines := [PersonalHeader(date)];
    var i := 0;
    while i < |ranked|
      invariant 0 <= i <= |ranked|
      invariant lines == [PersonalHeader(date)] + seq(i, (j: nat) requires j < i => PersonalLine(j + 1, ranked[j]))
    {
      lines := lines + [PersonalLine(i + 1, ranked[i])];
      i := i + 1;
    }
    lines := lines + ["\n", PersonalFooter(Total(ranked))];
    assert lines == PersonalLines(date, ranked);
    chat.sent := chat.sent + [Post(target, Text(Join(lines, "\n")))];
  }

  // ---------------------------------------------------------------------------
  // Readonly registry
  // ---------------------------------------------------------------------------

  /** Some row of the registry is for `account`. */
  function Registered(rows: seq<ReadonlyRow>, account: nat): (r: bool)
    ensures r <==> exists i :: 0 <= i < |rows| && rows[i].account == account
  {
    if rows == [] then false else rows[0].account == account || Registered(rows[1..], account)
  }

  /** Deletes every row of `account`, keeping the others in order. */
  function WithoutAccount(rows: seq<ReadonlyRow>, account: nat): (r: seq<ReadonlyRow>)
    ensures forall x :: x in r <==> x in rows && x.account != account
  {
    if rows == [] then []
    else (if rows[0].account == account then [] else [rows[0]]) + WithoutAccount(rows[1..], account)
  }

  /** After a save the account is registered, and no other account's standing changes. */
  lemma RegisteredAfterSave(rows: seq<ReadonlyRow>, account: nat, timestamp: string, other: nat)
    requires other != account
    ensures Registered(rows + [ReadonlyRow(account, timestamp)], account)
    ensures Registered(rows + [ReadonlyRow(account, timestamp)], other) == Registered(rows, other)
  {
    var s := rows + [ReadonlyRow(account, timestamp)];
    assert s[|rows|].account == account;
    if Registered(s, other) {
      var i :| 0 <= i < |s| && s[i].account == other;
      assert i < |rows| && rows[i].account == other;
    }
    if Registered(rows, other) {
      var i :| 0 <= i < |rows| && rows[i].account == other;
      assert s[i] == rows[i];
    }
  }

  /** After a removal the account is not registered, and no other account's standing changes. */
  lemma RegisteredAfterRemove(rows: seq<ReadonlyRow>, account: nat, other: nat)
    requires other != account
    ensures !Registered(WithoutAccount(rows, account), account)
    ensures Registered(WithoutAccount(rows, account), other) == Registered(rows, other)
  {
    var w := WithoutAccount(rows, account);
    RegisteredMember(w, account);
    RegisteredMember(w, other);
    RegisteredMember(rows, other);
  }

  /** Being registered is having a row of the registry. */
  lemma RegisteredMember(rows: seq<ReadonlyRow>, account: nat)
    ensures Registered(rows, account) <==> exists x :: x in rows && x.account == account
  {
    if Registered(rows, account) {
      var i :| 0 <= i < |rows| && rows[i].account == account;
      assert rows[i] in rows;
    }
    if exists x :: x in rows && x.account == account {
      var x :| x in rows && x.account == account;
      var i :| 0 <= i < |rows| && rows[i] == x;
    }
  }

  /** `is_readonly_user_in_db`: a row exists for the account (false without a database). */
  function IsReadonlyUserInDb(db: Store, account: nat): (r: bool)
    reads db
    ensures r <==> db.connected && exists i :: 0 <= i < |db.readonlyUsers| && db.readonlyUsers[i].account == account
  {
    db.connected && Registered(db.readonlyUsers, account)
  }

  /** `save_readonly_user_to_db`: inserts a row stamped with `timestamp`. */
  method SaveReadonlyUserToDb(db: Store, account: nat, timestamp: string)
    modifies db`readonlyUsers
    ensures db.readonlyUsers == if db.connected then old(db.readonlyUsers) + [ReadonlyRow(account, timestamp)]
                                else old(db.readonlyUsers)
    ensures db.connected ==> IsReadonlyUserInDb(db, account)
  {
    if !db.connected {
      return;
    }
    db.readonlyUsers := db.readonlyUsers + [ReadonlyRow(account, timestamp)];
    assert db.readonlyUsers[|db.readonlyUsers| - 1].account == account;
  }

  /** `remove_readonly_user_from_db`: deletes the account's rows and reports whether any was deleted. */
  method RemoveReadonlyUserFromDb(db: Store, account: nat) returns (removed: bool)
    modifies db`readonlyUsers
    ensures removed <==> db.connected && Registered(old(db.readonlyUsers), account)
    ensures db.readonlyUsers == if db.connected then WithoutAccount(old(db.readonlyUsers), account)
                                else old(db.readonlyUsers)
    ensures !IsReadonlyUserInDb(db, account)
  {
    if !db.connected {
      return false;
    }
    removed := Registered(db.readonlyUsers, account);
    db.readonlyUsers := WithoutAccount(db.readonlyUsers, account);
    RegisteredAfterRemove(old(db.readonlyUsers), account, account + 1);
  }

  // ---------------------------------------------------------------------------
  // Room info
  // ---------------------------------------------------------------------------

  /**
   * `update_room_info_in_db`: upserts the room's name under its id as a string. `writeOk`
   * says whether the upsert succeeds; a failing one is caught and reported as `false`.
   */
  method UpdateRoomInfoInDb(db: Store, room: nat, name: string, writeOk: bool) returns (ok: bool)
    modifies db`roomInfo
    ensures ok <==> db.connected && writeOk
    ensures db.roomInfo == if ok then old(db.roomInfo)[NatToString(room) := name] else old(db.roomInfo)
  {
    if !db.connected || !writeOk {
      return false;
    }
    db.roomInfo := db.roomInfo[NatToString(room) := name];
    return true;
  }

  /** `get_all_room_info_from_db`: the table keyed by room id string; empty without a database. */
  function GetAllRoomInfo(db: Store): (info: map<string, string>)
    reads db
    ensures db.connected ==> info == db.roomInfo
    ensures !db.connected ==> info == map[]
  {
    if db.connected then db.roomInfo else map[]
  }

  /** `room_info_data.get(room_id, {}).get("room_name", "Unknown Room")`. */
  function RoomName(info: map<string, string>, key: string): (name: string)
    ensures key in info ==> name == info[key]
    ensures key !in info ==> name == "Unknown Room"
  {
    if key in info then info[key] else "Unknown Room"
  }
}
