/**
 * The two scheduled jobs of `jobs.py`: the hourly time signal, posted to each room whose
 * interval divides the current minute, and the daily top-five digest of yesterday's
 * per-user counts. The clock is an input: the current minute, its formatted stamp, and the
 * ISO date of yesterday. Any exception inside a job is caught and ends that job.
 */
module Jobs {
  import opened Wrappers
  import opened Text
  import opened Ranking
  import opened Db
  import opened Queries

  // ---------------------------------------------------------------------------
  // time_report_job
  // ---------------------------------------------------------------------------

  /** Python's `a % b`: the remainder takes the sign of the divisor. */
  function PyMod(a: int, b: int): (r: int)
    requires b != 0
    ensures b > 0 ==> 0 <= r < b
    ensures b < 0 ==> b < r <= 0
    ensures r == 0 <==> a % b == 0
  {
    var e := a % b;
    if b < 0 && e != 0 then e + b else e
  }

  /** `now.minute % interval == 0`, for a room whose interval does not raise. */
  predicate Due(row: HourlyRow, minute: nat)
    requires row.interval != 0
  {
    PyMod(minute, row.interval) == 0
  }

  /**
   * The time signals posted for the rows, in table order. An interval of 0 raises
   * `ZeroDivisionError`, which the job's handler catches: no row from there on is served.
   */
  function Signals(rows: seq<HourlyRow>, minute: nat, stamp: string): seq<Post> {
    if rows == [] || rows[0].interval == 0 then []
    else
      (if Due(rows[0], minute) then [Post(NatToString(rows[0].room), TimeSignal(stamp))] else []) +
      Signals(rows[1..], minute, stamp)
  }

  /** No row from 0 to `n` has an interval of 0 */
  predicate NoZeroBefore(rows: seq<HourlyRow>, n: nat)
    requires n <= |rows|
  {
    forall j :: 0 <= j < n ==> rows[j].interval != 0
  }

  /** Row `i` is read (no interval of 0 before it), is not itself 0, belongs to `room` and is due. */
  predicate SignalledAt(rows: seq<HourlyRow>, i: nat, minute: nat, room: nat) {
    i < |rows| && NoZeroBefore(rows, i) && rows[i].interval != 0 && rows[i].room == room && Due(rows[i], minute)
  }

  /** Past a first row that is read, row `i + 1` is signalled exactly when row `i` of the rest is. */
  lemma SignalledShift(rows: seq<HourlyRow>, i: nat, minute: nat, room: nat)
    requires rows != [] && rows[0].interval != 0
    ensures SignalledAt(rows, i + 1, minute, room) <==> SignalledAt(rows[1..], i, minute, room)
  {
    if i + 1 < |rows| {
      assert rows[1..][i] == rows[i + 1];
      assert NoZeroBefore(rows, i + 1) <==> NoZeroBefore(rows[1..], i) by {
        assert forall j :: 0 < j < i + 1 ==> rows[j] == rows[1..][j - 1];
        assert forall j :: 0 <= j < i ==> rows[1..][j] == rows[j + 1];
      }
    }
  }

  /**
   * A room receives a signal exactly when one of its rows, before the first interval of 0,
   * has an interval that divides the minute.
   */
  lemma SignalsIff(rows: seq<HourlyRow>, minute: nat, stamp: string, room: nat)
    ensures Post(NatToString(room), TimeSignal(stamp)) in Signals(rows, minute, stamp) <==>
            exists i :: SignalledAt(rows, i, minute, room)
  {
    if Post(NatToString(room), TimeSignal(stamp)) in Signals(rows, minute, stamp) {
      SignalsSound(rows, minute, stamp, room);
    }
    if exists i :: SignalledAt(rows, i, minute, room) {
      var i :| SignalledAt(rows, i, minute, room);
      SignalsComplete(rows, minute, stamp, room, i);
    }
  }

  lemma {:induction false} SignalsSound(rows: seq<HourlyRow>, minute: nat, stamp: string, room: nat)
    requires Post(NatToString(room), TimeSignal(stamp)) in Signals(rows, minute, stamp)
    ensures exists i :: SignalledAt(rows, i, minute, room)
  {
    var rest := rows[1..];
    NatToStringInjective(rows[0].room, room);
    if rows[0].room == room && Due(rows[0], minute) {
      assert SignalledAt(rows, 0, minute, room);
    } else {
      SignalsSound(rest, minute, stamp, room);
      var i :| SignalledAt(rest, i, minute, room);
      SignalledShift(rows, i, minute, room);
    }
  }

  lemma {:induction false} SignalsComplete(rows: seq<HourlyRow>, minute: nat, stamp: string, room: nat, i: nat)
    requires SignalledAt(rows, i, minute, room)
    ensures Post(NatToString(room), TimeSignal(stamp)) in Signals(rows, minute, stamp)
    decreases i
  {
    if i > 0 {
      assert rows[0].interval != 0;
      SignalledShift(rows, i - 1, minute, room);
      SignalsComplete(rows[1..], minute, stamp, room, i - 1);
    }
  }

  /** With the default interval of 60 a room is signalled only on the hour. */
  lemma OnTheHour(minute: nat)
    requires minute < 60
    ensures Due(HourlyRow(0, 60), minute) <==> minute == 0
  {
  }

  /** A negative interval is due on its multiples, like the positive one: `-15` on 0, 15, 30 and 45. */
  lemma NegativeInterval(minute: nat, n: nat)
    requires n > 0
    ensures Due(HourlyRow(0, -(n as int)), minute) <==> minute % n == 0
  {
    assert minute % (-(n as int)) == minute % n;
  }

  /**
   * `time_report_job`: reads every row of `hourly_report_rooms` and posts the signal to each
   * room that is due. A failing store raises before anything is posted.
   */
  method TimeReportJob(db: Store, chat: Chat, minute: nat, stamp: string)
    modifies chat
    ensures !db.connected ==> chat.sent == old(chat.sent)
    ensures db.connected ==> chat.sent == old(chat.sent) + Signals(db.hourlyReportRooms, minute, stamp)
  {
    if !db.connected {
      return;
    }
    var rooms := db.hourlyReportRooms;
    var i := 0;
    while i < |rooms|
      invariant i <= |rooms| && NoZeroBefore(rooms, i)
      invariant old(chat.sent) + Signals(rooms, minute, stamp) == chat.sent + Signals(rooms[i..], minute, stamp)
    {
      var room := rooms[i];
      assert rooms[i..][1..] == rooms[i + 1..];
      if room.interval == 0 {
        return;
      }
      if PyMod(minute, room.interval) == 0 {
        chat.sent := chat.sent + [Post(NatToString(room.room), TimeSignal(stamp))];
      }
      i := i + 1;
    }
  }

  // ---------------------------------------------------------------------------
  // ranking_post_job
  // ---------------------------------------------------------------------------

  /** `user_names.get(user, f"ユーザーID:{user}")`. */
  function DigestName(members: seq<Member>, user: nat): string {
    match NameIn(members, user)
    case Some(name) => name
    case None => "ユーザーID:" + NatToString(user)
  }

  function DigestLine(rank: nat, name: string, count: nat): string {
    NatToString(rank) + "位: " + name + "さん (" + NatToString(count) + "件)\n"
  }

  /** One line per ranked row, numbered from 1. */
  function DigestLines(top: seq<UserCountRow>, members: seq<Member>): (r: seq<string>)
    ensures |r| == |top|
  {
    seq(|top|, (i: nat) requires i < |top| => DigestLine(i + 1, DigestName(members, top[i].user), top[i].count))
  }

  function DigestHeader(yesterday: Date): string {
    yesterday + "のメッセージ数ランキング\U{1F389}\n" + "---\n"
  }

  /** The values of `xs` up to its first `None`: what a loop that stops at the first failure produces. */
  function UntilNone<T>(xs: seq<Option<T>>): (r: seq<T>)
    ensures |r| <= |xs|
    ensures forall k :: 0 <= k < |r| ==> xs[k] == Some(r[k])
    ensures |r| < |xs| ==> xs[|r|].None?
  {
    if xs == [] || xs[0].None? then [] else [xs[0].value] + UntilNone(xs[1..])
  }

  /** `UntilNone` from the `i`-th element on: that element's value, then the rest, unless it is `None`. */
  lemma UntilNoneAt<T>(xs: seq<Option<T>>, i: nat)
    requires i < |xs|
    ensures UntilNone(xs[i..]) == if xs[i].None? then [] else [xs[i].value] + UntilNone(xs[i + 1..])
  {
    assert xs[i..][0] == xs[i] && xs[i..][1..] == xs[i + 1..];
  }

  /** What one room gets: the notice, its digest, or `None` when reading its member list raises. */
  function RoomPost(room: nat, rows: seq<UserCountRow>, yesterday: Date, members: map<nat, seq<Member>>): (r: Option<Post>)
    ensures r.Some? ==> r.value.room == NatToString(room)
    ensures r.None? <==> Top(rows, room, yesterday, 5) != [] && room !in members
    ensures r.Some? ==> (r.value.content == NoRankingYet(yesterday) <==> Top(rows, room, yesterday, 5) == [])
  {
    var top := Top(rows, room, yesterday, 5);
    if top == [] then Some(Post(NatToString(room), NoRankingYet(yesterday)))
    else if room !in members then None
    else Some(Post(NatToString(room), Text(DigestHeader(yesterday) + Concat(DigestLines(top, members[room])))))
  }

  /** Each ranking room's own outcome, in order. */
  function RoomPosts(rooms: seq<nat>, rows: seq<UserCountRow>, yesterday: Date, members: map<nat, seq<Member>>): (r: seq<Option<Post>>)
    ensures |r| == |rooms|
    ensures forall k :: 0 <= k < |rooms| ==> r[k] == RoomPost(rooms[k], rows, yesterday, members)
  {
    seq(|rooms|, (k: nat) requires k < |rooms| => RoomPost(rooms[k], rows, yesterday, members))
  }

  /**
   * The posts for the ranking rooms from the first to the last: a notice for a room without
   * rows for yesterday, the digest of its top five otherwise. A room whose member list cannot
   * be read raises, which the job's handler catches: no room from there on is served.
   */
  function DigestPosts(rooms: seq<nat>, rows: seq<UserCountRow>, yesterday: Date,
                       members: map<nat, seq<Member>>): seq<Post> {
    UntilNone(RoomPosts(rooms, rows, yesterday, members))
  }

  /**
   * When every member list can be read, each ranking room gets exactly one post, in order,
   * and it is the room's own post: by `RoomPost`, the notice exactly when the room has no
   * rows for yesterday, its digest otherwise.
   */
  lemma DigestPostsComplete(rooms: seq<nat>, rows: seq<UserCountRow>, yesterday: Date,
                            members: map<nat, seq<Member>>)
    requires forall r :: r in rooms ==> r in members
    ensures var posts := DigestPosts(rooms, rows, yesterday, members);
            |posts| == |rooms| &&
            forall k :: 0 <= k < |rooms| ==> RoomPost(rooms[k], rows, yesterday, members) == Some(posts[k])
  {
    forall k | 0 <= k < |rooms| ensures RoomPost(rooms[k], rows, yesterday, members).Some? {
      assert rooms[k] in rooms;
    }
  }

  /** Every post goes to a ranking room, and there is at most one per ranking room. */
  lemma DigestPostsTargets(rooms: seq<nat>, rows: seq<UserCountRow>, yesterday: Date,
                           members: map<nat, seq<Member>>)
    ensures |DigestPosts(rooms, rows, yesterday, members)| <= |rooms|
    ensures forall p :: p in DigestPosts(rooms, rows, yesterday, members) ==>
              exists r :: r in rooms && p.room == NatToString(r)
  {
    var posts := DigestPosts(rooms, rows, yesterday, members);
    forall p | p in posts ensures exists r :: r in rooms && p.room == NatToString(r) {
      var k :| 0 <= k < |posts| && posts[k] == p;
      assert rooms[k] in rooms;
    }
  }

  /** A digest ranks at most five users, by yesterday's count, descending, all of that room and day. */
  lemma DigestTop(rows: seq<UserCountRow>, room: nat, yesterday: Date)
    ensures var top := Top(rows, room, yesterday, 5);
            |top| <= 5 && |DigestLines(top, [])| == |top| &&
            (forall i, j :: 0 <= i < j < |top| ==> top[i].count >= top[j].count) &&
            forall x :: x in top ==> x in rows && x.room == room && x.date == yesterday
  {
    var top := Top(rows, room, yesterday, 5);
    TopShape(rows, room, yesterday, 5);
    TopMembers(rows, room, yesterday, 5);
    forall i, j | 0 <= i < j < |top| ensures top[i].count >= top[j].count {
      assert UserCount(top[i]) >= UserCount(top[j]);
    }
  }

  /** An unknown user is shown by id. */
  lemma DigestNameFallback(members: seq<Member>, user: nat)
    requires forall i :: 0 <= i < |members| ==> members[i].account != user
    ensures DigestName(members, user) == "ユーザーID:" + NatToString(user)
  {
  }

  /** The message of `ranking_post_job` for one room: the header, then the lines. */
  method DigestMessage(yesterday: Date, top: seq<UserCountRow>, members: seq<Member>) returns (message: string)
    ensures message == DigestHeader(yesterday) + Concat(DigestLines(top, members))
  {
    var list := DigestList(top, members);
    message := yesterday + "のメッセージ数ランキング\U{1F389}\n";
    message := message + "---\n";
    message := message + list;
  }

  /** The inner loop of `ranking_post_job`, one line per ranked row. */
  method DigestList(top: seq<UserCountRow>, members: seq<Member>) returns (list: string)
    ensures list == Concat(DigestLines(top, members))
  {
    ghost var lines := DigestLines(top, members);
    list := "";
    var i := 0;
    while i < |top|
      invariant i <= |top|
      invariant list == Concat(lines[..i])
    {
      var data := top[i];
      var userName := DigestName(members, data.user);
      var line := DigestLine(i + 1, userName, data.count);
      assert line == lines[i];
      ConcatPrefix(lines, i);
      list := list + line;
      i := i + 1;
    }
    assert lines[..|top|] == lines;
  }

  /**
   * `ranking_post_job`. `members` holds the member lists that can be read; a room missing
   * from it stands for a call whose error result makes the name lookup raise. A failing
   * store raises before anything is posted; with no ranking rooms nothing is posted.
   */
  method RankingPostJob(db: Store, chat: Chat, yesterday: Date, members: map<nat, seq<Member>>)
    modifies chat
    ensures !db.connected || db.rankingRooms == [] ==> chat.sent == old(chat.sent)
    ensures db.connected ==>
              chat.sent == old(chat.sent) + DigestPosts(db.rankingRooms, db.userMessageCounts, yesterday, members)
  {
    if !db.connected {
      return;
    }
    var rooms := db.rankingRooms;
    var rows := db.userMessageCounts;
    if rooms == [] {
      return;
    }
    ghost var posts := RoomPosts(rooms, rows, yesterday, members);
    var i := 0;
    while i < |rooms|
      invariant i <= |rooms|
      invariant old(chat.sent) + UntilNone(posts) == chat.sent + UntilNone(posts[i..])
    {
      var room := rooms[i];
      ghost var post := posts[i];
      ghost var later := UntilNone(posts[i + 1..]);
      UntilNoneAt(posts, i);
      var top := Top(rows, room, yesterday, 5);
      if top == [] {
        AppendAssoc(chat.sent, [post.value], later);
        chat.sent := chat.sent + [Post(NatToString(room), NoRankingYet(yesterday))];
        i := i + 1;
        continue;
      }
      if room !in members {
        return;
      }
      var message := DigestMessage(yesterday, top, members[room]);
      AppendAssoc(chat.sent, [post.value], later);
      chat.sent := chat.sent + [Post(NatToString(room), Text(message))];
      i := i + 1;
    }
  }
}
