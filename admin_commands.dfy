/**
 * The `/recount [room]` admin command: it drops a room's `user_message_counts` rows and
 * rebuilds them from the room's latest messages, one row per (account, date) with the
 * number of messages and the id of the newest one.
 */
module AdminCommands {
  import opened Wrappers
  import opened Text
  import opened Ranking
  import opened Db

  // ---------------------------------------------------------------------------
  // The target room: `re.search(r'/recount\s+(\d+)?', body)`
  // ---------------------------------------------------------------------------

  /** A match of `/recount\s+` starts at `i`: the literal and at least one whitespace character. */
  predicate RecountAt(body: string, i: nat) {
    OccursAt(body, "/recount", i) && i + 8 < |body| && IsSpace(body[i + 8])
  }

  /**
   * The room to recount: the digits captured right after the whitespace of the leftmost
   * match, when there are any (`"0"` is a non-empty capture, so room 0 is possible), and
   * otherwise the room the command was posted in.
   */
  function RecountTarget(body: string, room: nat): nat {
    match FirstFrom(0, |body|, (i: nat) => RecountAt(body, i))
    case None => room
    case Some(i) =>
      var j := SkipSpaces(body, i + 9);
      var e := RunEnd(body, j);
      if j < e then DigitsValue(body[j..e]) else room
  }

  lemma SkipNoSpace(s: string, i: nat)
    requires i < |s| && !IsSpace(s[i])
    ensures SkipSpaces(s, i) == i
  {
  }

  /** `/recount <n>` targets room `n`, whatever follows the number. */
  lemma RecountTargetOf(n: nat, room: nat, rest: string)
    requires rest == [] || !IsDigit(rest[0])
    ensures RecountTarget("/recount " + NatToString(n) + rest, room) == n
  {
    var body := "/recount " + NatToString(n) + rest;
    var tail := NatToString(n) + rest;
    assert body == "/recount " + tail;
    assert body[..8] == "/recount" && body[8] == ' ';
    assert RecountAt(body, 0);
    assert FirstFrom(0, |body|, (i: nat) => RecountAt(body, i)) == Some(0);
    assert body[9..] == tail;
    assert body[9] == tail[0];
    SkipNoSpace(body, 9);
    NumberPrefix(n, rest);
    var k := |NatToString(n)|;
    assert k == |NatToString(n)|;
    assert body[9..9 + k] == tail[..k];
    assert AllDigits(body[9..9 + k]);
    if 9 + k < |body| {
      assert body[9 + k] == rest[0];
    }
    RunEndAt(body, 9, 9 + k);
  }

  /** `/recount` followed by whitespace and no number targets the current room. */
  lemma RecountTargetDefault(room: nat, rest: string)
    requires rest == [] || (!IsDigit(rest[0]) && !IsSpace(rest[0]))
    ensures RecountTarget("/recount " + rest, room) == room
  {
    var body := "/recount " + rest;
    assert body[..8] == "/recount" && body[8] == ' ';
    assert RecountAt(body, 0);
    assert FirstFrom(0, |body|, (i: nat) => RecountAt(body, i)) == Some(0);
    if rest != [] {
      assert body[9] == rest[0];
      SkipNoSpace(body, 9);
    }
  }

  /** A body without `/recount` in it targets the current room. */
  lemma RecountTargetAbsent(body: string, room: nat)
    requires !Contains(body, "/recount")
    ensures RecountTarget(body, room) == room
  {
    ContainsIff(body, "/recount");
    forall i: nat | i < |body| ensures !RecountAt(body, i) {
      assert !OccursAt(body, "/recount", i);
    }
  }

  // ---------------------------------------------------------------------------
  // Deleting the room's rows
  // ---------------------------------------------------------------------------

  /** `delete().eq('room_id', room)`: every row of the room goes, the others stay in order. */
  function WithoutRoom(rows: seq<UserCountRow>, room: nat): (r: seq<UserCountRow>)
    ensures forall x :: x in r <==> x in rows && x.room != room
    ensures |r| <= |rows|
  {
    if rows == [] then []
    else
      var rest := WithoutRoom(rows[..|rows| - 1], room);
      var last := rows[|rows| - 1];
      assert rows == rows[..|rows| - 1] + [last];
      if last.room == room then rest else rest + [last]
  }

  // ---------------------------------------------------------------------------
  // Reversing the fetched messages (`messages.reverse()`)
  // ---------------------------------------------------------------------------

  /** A fetched message: its id, its send date (already converted to a local ISO date) and its sender. */
  datatype Msg = Msg(id: nat, date: Date, account: nat)

  function Reversed<T>(s: seq<T>): (r: seq<T>)
    ensures |r| == |s|
  {
    seq(|s|, (i: int) requires 0 <= i < |s| => s[|s| - 1 - i])
  }

  lemma ReversedTwice<T>(s: seq<T>)
    ensures Reversed(Reversed(s)) == s
  {
  }

  method Reverse(a: array<Msg>)
    modifies a
    ensures a[..] == Reversed(old(a[..]))
  {
    ghost var s := a[..];
    ghost var r := Reversed(s);
    var n := a.Length;
    var i := 0;
    while i < n - 1 - i
      invariant 0 <= i <= n - i
      invariant forall k :: 0 <= k < n ==> a[k] == if k < i || n - i <= k then r[k] else s[k]
    {
      assert r[i] == s[n - 1 - i] && r[n - 1 - i] == s[i];
      a[i], a[n - 1 - i] := a[n - 1 - i], a[i];
      i := i + 1;
    }
  }

  // ---------------------------------------------------------------------------
  // Grouping by (account, date)
  // ---------------------------------------------------------------------------

  type Key = (nat, Date)

  function KeyOf(m: Msg): Key {
    (m.account, m.date)
  }

  function KeysOf(ms: seq<Msg>): (ks: seq<Key>)
    ensures |ks| == |ms|
    ensures forall i :: 0 <= i < |ms| ==> ks[i] == KeyOf(ms[i])
  {
    if ms == [] then [] else KeysOf(ms[..|ms| - 1]) + [KeyOf(ms[|ms| - 1])]
  }

  /** The number of messages in `ms` with key `k`. */
  function Occurrences(ms: seq<Msg>, k: Key): nat {
    if ms == [] then 0
    else Occurrences(ms[..|ms| - 1], k) + (if KeyOf(ms[|ms| - 1]) == k then 1 else 0)
  }

  /** A group's `{'count': ..., 'last_message_id': ...}` entry. */
  datatype Group = Group(count: nat, lastMessageId: nat)

  /** The `counts` dict: its keys in insertion order and its entries. */
  datatype Groups = Groups(order: seq<Key>, info: map<Key, Group>)

  /**
   * One step of the loop (`if key not in counts: counts[key] = {'count': 0, ...}` and then
   * `counts[key]['count'] += 1`): a key seen for the first time is appended with count 1 and
   * this message's id; a known key only has its count raised.
   */
  function AddMessage(g: Groups, m: Msg): Groups {
    var k := KeyOf(m);
    if k in g.info then Groups(g.order, g.info[k := Group(g.info[k].count + 1, g.info[k].lastMessageId)])
    else Groups(g.order + [k], g.info[k := Group(1, m.id)])
  }

  /** The dict after the loop has run over `ms`, first to last: it has an entry for each key of `ms`. */
  function GroupsOf(ms: seq<Msg>): (g: Groups)
    ensures forall k :: k in g.order <==> k in g.info
    ensures forall k :: k in g.info <==> k in KeysOf(ms)
  {
    if ms == [] then Groups([], map[]) else AddMessage(GroupsOf(ms[..|ms| - 1]), ms[|ms| - 1])
  }

  lemma KeysOfSnoc(ms: seq<Msg>)
    requires ms != []
    ensures KeysOf(ms) == KeysOf(ms[..|ms| - 1]) + [KeyOf(ms[|ms| - 1])]
    ensures KeysOf(ms)[..|ms| - 1] == KeysOf(ms[..|ms| - 1])
  {
  }

  lemma {:induction false} OccurrencesAbsent(ms: seq<Msg>, k: Key)
    requires k !in KeysOf(ms)
    ensures Occurrences(ms, k) == 0
  {
    if ms != [] {
      KeysOfSnoc(ms);
      OccurrencesAbsent(ms[..|ms| - 1], k);
    }
  }

  /** The keys are in first-seen order, each once. */
  lemma {:induction false} GroupsOrder(ms: seq<Msg>)
    ensures GroupsOf(ms).order == Dedup(KeysOf(ms))
  {
    if ms != [] {
      var p := ms[..|ms| - 1];
      KeysOfSnoc(ms);
      GroupsOrder(p);
      DedupProperties(KeysOf(p));
    }
  }

  /** Each key's count is the number of messages with that key. */
  lemma {:induction false} GroupsCounts(ms: seq<Msg>)
    ensures forall k :: k in GroupsOf(ms).info ==> GroupsOf(ms).info[k].count == Occurrences(ms, k)
  {
    if ms != [] {
      var p := ms[..|ms| - 1];
      var x := KeyOf(ms[|ms| - 1]);
      KeysOfSnoc(ms);
      GroupsCounts(p);
      if x !in KeysOf(p) {
        OccurrencesAbsent(p, x);
      }
    }
  }

  /** Each key keeps the id of the first message with that key; later ones never overwrite it. */
  lemma {:induction false} GroupsFirstIds(ms: seq<Msg>)
    ensures FirstIds(ms)
  {
    if ms != [] {
      var p := ms[..|ms| - 1];
      GroupsFirstIds(p);
      FirstIdsStep(p, ms[|ms| - 1]);
      assert p + [ms[|ms| - 1]] == ms;
    }
  }

  /** Every group of `ms` holds the id of the first message with its key. */
  predicate FirstIds(ms: seq<Msg>) {
    forall k :: k in GroupsOf(ms).info ==> GroupsOf(ms).info[k].lastMessageId == ms[FirstIndex(KeysOf(ms), k)].id
  }

  lemma FirstIdsStep(p: seq<Msg>, m: Msg)
    requires FirstIds(p)
    ensures FirstIds(p + [m])
  {
    var ms := p + [m];
    var x := KeyOf(m);
    var kp := KeysOf(p);
    assert ms[..|ms| - 1] == p;
    KeysOfSnoc(ms);
    assert KeysOf(ms) == kp + [x];
    var g := GroupsOf(p);
    var h := GroupsOf(ms);
    assert h == AddMessage(g, m);
    forall k | k in h.info ensures h.info[k].lastMessageId == ms[FirstIndex(kp + [x], k)].id {
      if k in g.info {
        FirstIdKept(p, m, k);
      } else {
        FirstIndexAppendNew(kp, x);
      }
    }
  }

  /** A key already grouped keeps its first index, and its id, when a message is appended. */
  lemma FirstIdKept(p: seq<Msg>, m: Msg, k: Key)
    requires k in GroupsOf(p).info
    ensures FirstIndex(KeysOf(p) + [KeyOf(m)], k) == FirstIndex(KeysOf(p), k)
    ensures AddMessage(GroupsOf(p), m).info[k].lastMessageId == GroupsOf(p).info[k].lastMessageId
    ensures (p + [m])[FirstIndex(KeysOf(p), k)] == p[FirstIndex(KeysOf(p), k)]
  {
    var kp := KeysOf(p);
    FirstIndexExtend(kp, KeyOf(m), k);
  }

  /** The sum of the counts of the keys in `keys`. */
  function SumCounts(keys: seq<Key>, info: map<Key, Group>): nat
    requires forall k :: k in keys ==> k in info
  {
    if keys == [] then 0
    else SumCounts(keys[..|keys| - 1], info) + info[keys[|keys| - 1]].count
  }

  lemma SumCountsSnoc(keys: seq<Key>, info: map<Key, Group>, k: Key)
    requires forall j :: j in keys ==> j in info
    requires k in info
    ensures SumCounts(keys + [k], info) == SumCounts(keys, info) + info[k].count
  {
    assert (keys + [k])[..|keys|] == keys;
  }

  lemma {:induction false} SumCountsOther(keys: seq<Key>, info: map<Key, Group>, k: Key, v: Group)
    requires forall j :: j in keys ==> j in info
    requires k !in keys
    ensures SumCounts(keys, info[k := v]) == SumCounts(keys, info)
  {
    if keys != [] {
      var p := keys[..|keys| - 1];
      assert forall j :: j in p ==> j in keys;
      SumCountsOther(p, info, k, v);
    }
  }

  lemma {:induction false} SumCountsBump(keys: seq<Key>, info: map<Key, Group>, k: Key, v: Group)
    requires forall j :: j in keys ==> j in info
    requires Distinct(keys) && k in keys && v.count == info[k].count + 1
    ensures SumCounts(keys, info[k := v]) == SumCounts(keys, info) + 1
  {
    var p := keys[..|keys| - 1];
    var last := keys[|keys| - 1];
    assert keys == p + [last];
    assert forall j :: j in p ==> j in keys;
    if last == k {
      assert k !in p;
      SumCountsOther(p, info, k, v);
    } else {
      assert k in p;
      SumCountsBump(p, info, k, v);
    }
  }

  /** One more message raises the total of the counts by exactly one. */
  lemma AddMessageTotal(g: Groups, m: Msg)
    requires forall k :: k in g.order <==> k in g.info
    requires Distinct(g.order)
    ensures forall k :: k in AddMessage(g, m).order <==> k in AddMessage(g, m).info
    ensures SumCounts(AddMessage(g, m).order, AddMessage(g, m).info) == SumCounts(g.order, g.info) + 1
  {
    var k := KeyOf(m);
    if k in g.info {
      SumCountsBump(g.order, g.info, k, Group(g.info[k].count + 1, g.info[k].lastMessageId));
    } else {
      var v := Group(1, m.id);
      SumCountsOther(g.order, g.info, k, v);
      SumCountsSnoc(g.order, g.info[k := v], k);
    }
  }

  /** Every message is counted in exactly one group. */
  lemma {:induction false} GroupsTotal(ms: seq<Msg>)
    ensures SumCounts(GroupsOf(ms).order, GroupsOf(ms).info) == |ms|
  {
    if ms != [] {
      var p := ms[..|ms| - 1];
      GroupsTotal(p);
      GroupsOrder(p);
      DedupProperties(KeysOf(p));
      AddMessageTotal(GroupsOf(p), ms[|ms| - 1]);
    }
  }

  // ---------------------------------------------------------------------------
  // The rows to insert
  // ---------------------------------------------------------------------------

  /** `insert_data`: one row per key of the dict, in its insertion order. */
  function RowsFor(room: nat, keys: seq<Key>, info: map<Key, Group>): (rows: seq<UserCountRow>)
    requires forall k :: k in keys ==> k in info
    ensures |rows| == |keys|
    ensures forall i :: 0 <= i < |keys| ==>
              rows[i] == UserCountRow(keys[i].0, room, keys[i].1, info[keys[i]].count, info[keys[i]].lastMessageId)
  {
    if keys == [] then []
    else
      var k := keys[|keys| - 1];
      RowsFor(room, keys[..|keys| - 1], info) + [UserCountRow(k.0, room, k.1, info[k].count, info[k].lastMessageId)]
  }

  /** The rows the recount of `ms` (the fetched messages, already reversed) produces for `room`. */
  function RecountRows(room: nat, ms: seq<Msg>): seq<UserCountRow> {
    RowsFor(room, GroupsOf(ms).order, GroupsOf(ms).info)
  }

  function RowTotal(rows: seq<UserCountRow>): nat {
    if rows == [] then 0 else RowTotal(rows[..|rows| - 1]) + rows[|rows| - 1].count
  }

  lemma {:induction false} RowTotalFor(room: nat, keys: seq<Key>, info: map<Key, Group>)
    requires forall k :: k in keys ==> k in info
    ensures RowTotal(RowsFor(room, keys, info)) == SumCounts(keys, info)
  {
    if keys != [] {
      RowTotalFor(room, keys[..|keys| - 1], info);
      var rows := RowsFor(room, keys, info);
      assert rows[..|rows| - 1] == RowsFor(room, keys[..|keys| - 1], info);
    }
  }

  /** The key of a row. */
  function RowKey(r: UserCountRow): Key {
    (r.user, r.date)
  }

  /** The rows carry the distinct keys of `ms`, in first-seen order. */
  lemma RecountRowKeys(room: nat, ms: seq<Msg>)
    ensures |RecountRows(room, ms)| == |Dedup(KeysOf(ms))|
    ensures forall i :: 0 <= i < |RecountRows(room, ms)| ==> RowKey(RecountRows(room, ms)[i]) == Dedup(KeysOf(ms))[i]
  {
    GroupsOrder(ms);
  }

  /** No two rows share an (account, date). */
  lemma RecountRowsDistinct(room: nat, ms: seq<Msg>)
    ensures var rows := RecountRows(room, ms);
            forall i, j :: 0 <= i < j < |rows| ==> RowKey(rows[i]) != RowKey(rows[j])
  {
    RecountRowKeys(room, ms);
    DedupProperties(KeysOf(ms));
  }

  /** Every fetched message's (account, date) has a row. */
  lemma RecountRowsCover(room: nat, ms: seq<Msg>)
    ensures var rows := RecountRows(room, ms);
            forall m :: m in ms ==> exists i :: 0 <= i < |rows| && RowKey(rows[i]) == KeyOf(m)
  {
    var rows := RecountRows(room, ms);
    var d := Dedup(KeysOf(ms));
    RecountRowKeys(room, ms);
    DedupProperties(KeysOf(ms));
    forall m | m in ms ensures exists i :: 0 <= i < |rows| && RowKey(rows[i]) == KeyOf(m) {
      var j :| 0 <= j < |ms| && ms[j] == m;
      assert KeysOf(ms)[j] == KeyOf(m);
      assert KeyOf(m) in d;
      var i :| 0 <= i < |d| && d[i] == KeyOf(m);
      assert RowKey(rows[i]) == KeyOf(m);
    }
  }

  /**
   * Each row is for `room` and holds the number of messages with its key and the id of the
   * first of them.
   */
  lemma RecountRowsContent(room: nat, ms: seq<Msg>)
    ensures var rows := RecountRows(room, ms);
            forall i :: 0 <= i < |rows| ==>
              RowKey(rows[i]) in KeysOf(ms) && rows[i].room == room &&
              rows[i].count == Occurrences(ms, RowKey(rows[i])) &&
              rows[i].lastMessageId == ms[FirstIndex(KeysOf(ms), RowKey(rows[i]))].id
  {
    var g := GroupsOf(ms);
    var rows := RecountRows(room, ms);
    GroupsCounts(ms);
    GroupsFirstIds(ms);
    forall i | 0 <= i < |rows| ensures RowKey(rows[i]) == g.order[i] && g.order[i] in g.info {
    }
  }

  /** The counts add up to the number of fetched messages, and there is a row exactly when there is a message. */
  lemma RecountRowsTotal(room: nat, ms: seq<Msg>)
    ensures RowTotal(RecountRows(room, ms)) == |ms|
    ensures RecountRows(room, ms) == [] <==> ms == []
  {
    var g := GroupsOf(ms);
    GroupsTotal(ms);
    RowTotalFor(room, g.order, g.info);
    if ms != [] {
      assert KeysOf(ms)[0] in g.info;
    }
  }

  // ---------------------------------------------------------------------------
  // The command
  // ---------------------------------------------------------------------------

  /** The reply that ends the recount, after the start notice. */
  function RecountOutcome(target: nat, fetched: Option<seq<Msg>>): Content {
    match fetched
    case None => RecountApiError
    case Some(ms) => if ms == [] then RecountNoMessages(target) else RecountDone(target)
  }

  /** The rows inserted after the delete: none unless messages were fetched. */
  function Inserted(target: nat, fetched: Option<seq<Msg>>): seq<UserCountRow> {
    match fetched
    case None => []
    case Some(ms) => RecountRows(target, Reversed(ms))
  }

  lemma GroupsOfPrefix(s: seq<Msg>, i: nat)
    requires i < |s|
    ensures GroupsOf(s[..i + 1]) == AddMessage(GroupsOf(s[..i]), s[i])
  {
    assert s[..i + 1][..i] == s[..i];
  }

  /** The loop over the reversed messages that fills the `counts` dict. */
  method GroupMessages(a: array<Msg>) returns (order: seq<Key>, counts: map<Key, Group>)
    ensures Groups(order, counts) == GroupsOf(a[..])
  {
    ghost var s := a[..];
    order, counts := [], map[];
    for i := 0 to a.Length
      invariant Groups(order, counts) == GroupsOf(s[..i])
    {
      GroupsOfPrefix(s, i);
      order, counts := CountMessage(order, counts, a[i]);
    }
    assert s[..a.Length] == s;
  }

  /** The loop body: a new key gets an entry with count 0 and this message's id, then the key's count goes up by one. */
  method CountMessage(order: seq<Key>, counts: map<Key, Group>, m: Msg) returns (order': seq<Key>, counts': map<Key, Group>)
    ensures Groups(order', counts') == AddMessage(Groups(order, counts), m)
  {
    order', counts' := order, counts;
    var key := KeyOf(m);
    if key !in counts' {
      counts' := counts'[key := Group(0, m.id)];
      order' := order' + [key];
    }
    counts' := counts'[key := counts'[key].(count := counts'[key].count + 1)];
  }

  /** The loop over `counts.items()` that appends one row per key to `insert_data`. */
  method BuildRows(room: nat, order: seq<Key>, counts: map<Key, Group>) returns (rows: seq<UserCountRow>)
    requires forall k :: k in order ==> k in counts
    ensures rows == RowsFor(room, order, counts)
  {
    rows := [];
    for i := 0 to |order|
      invariant rows == RowsFor(room, order[..i], counts)
    {
      assert order[..i + 1][..i] == order[..i];
      var key := order[i];
      rows := rows + [UserCountRow(key.0, room, key.1, counts[key].count, counts[key].lastMessageId)];
    }
    assert order[..|order|] == order;
  }

  /** The rebuild of `recount_command`: reverse the fetched messages in place, group them, make the rows. */
  method RecountMessages(target: nat, msgs: seq<Msg>) returns (rows: seq<UserCountRow>)
    ensures rows == RecountRows(target, Reversed(msgs))
  {
    var a := new Msg[|msgs|](i requires 0 <= i < |msgs| => msgs[i]);
    assert a[..] == msgs;
    Reverse(a);
    var order, counts := GroupMessages(a);
    rows := BuildRows(target, order, counts);
  }

  /** What `recount_command` does to the per-user counts and the chat. */
  twostate predicate RecountEffect(db: Store, chat: Chat, room: nat, body: string, fetched: Option<seq<Msg>>)
    reads db, chat
  {
    (!db.connected ==> db.userMessageCounts == old(db.userMessageCounts)) &&
    (!db.connected ==> chat.sent == old(chat.sent) + [Post(NatToString(room), RecountUnexpectedError)]) &&
    (db.connected ==>
       var target := RecountTarget(body, room);
       db.userMessageCounts == WithoutRoom(old(db.userMessageCounts), target) + Inserted(target, fetched)) &&
    (db.connected ==>
       var target := RecountTarget(body, room);
       chat.sent == old(chat.sent) + [Post(NatToString(room), RecountStarted(target)),
                                      Post(NatToString(room), RecountOutcome(target, fetched))])
  }

  /** The insert step of `recount_command`: the rebuilt rows, when messages were fetched. */
  method InsertFetched(db: Store, target: nat, fetched: Option<seq<Msg>>)
    modifies db`userMessageCounts
    ensures db.userMessageCounts == old(db.userMessageCounts) + Inserted(target, fetched)
  {
    if fetched.None? || fetched.value == [] {
      return;
    }
    var rows := RecountMessages(target, fetched.value);
    if rows != [] {
      db.userMessageCounts := db.userMessageCounts + rows;
    }
  }

  /**
   * `recount_command`. `fetched` is the room's message list as the chat API returned it,
   * oldest first, or `None` when the request failed. Without a database client the first
   * store call fails and only the unexpected-error reply is posted. Otherwise the target
   * room's rows are deleted before anything is fetched, the start notice is posted, and the
   * rebuilt rows are appended.
   */
  method RecountCommand(db: Store, chat: Chat, room: nat, body: string, fetched: Option<seq<Msg>>)
    modifies db`userMessageCounts, chat
    ensures RecountEffect(db, chat, room, body, fetched)
  {
    var here := NatToString(room);
    if !db.connected {
      chat.sent := chat.sent + [Post(here, RecountUnexpectedError)];
      return;
    }
    var target := RecountTarget(body, room);
    db.userMessageCounts := WithoutRoom(db.userMessageCounts, target);
    var started := Post(here, RecountStarted(target));
    chat.sent := chat.sent + [started];
    InsertFetched(db, target, fetched);
    var reply := RecountOutcome(target, fetched);
    AppendAssoc(old(chat.sent), [started], [Post(here, reply)]);
    chat.sent := chat.sent + [Post(here, reply)];
  }
}
