/**
 * The two reads of `user_message_counts` that the `/ranking` command and the daily ranking
 * job share, and the account-to-name dict both build from a room's member list.
 */
module Queries {
  import opened Wrappers
  import opened Ranking
  import opened Db

  /** `.eq('room_id', room).eq('message_date', date)`: the matching rows, in table order. */
  function Selected(rows: seq<UserCountRow>, room: nat, date: Date): (r: seq<UserCountRow>)
    ensures forall x :: x in r <==> x in rows && x.room == room && x.date == date
    ensures |r| <= |rows|
  {
    if rows == [] then []
    else
      var last := rows[|rows| - 1];
      assert rows == rows[..|rows| - 1] + [last];
      Selected(rows[..|rows| - 1], room, date) + (if last.room == room && last.date == date then [last] else [])
  }

  function UserCount(r: UserCountRow): int {
    r.count
  }

  /**
   * `.order('message_count', desc=True).limit(n)` on the selected rows. The store does not
   * fix the order of equal counts; the model keeps table order among them.
   */
  function Top(rows: seq<UserCountRow>, room: nat, date: Date, n: nat): seq<UserCountRow> {
    Take(SortDesc(Selected(rows, room, date), UserCount), n)
  }

  /** At most `n` rows, ordered by count, descending, and none only when nothing matches (or `n` is 0). */
  lemma TopShape(rows: seq<UserCountRow>, room: nat, date: Date, n: nat)
    ensures |Top(rows, room, date, n)| <= n
    ensures SortedDesc(Top(rows, room, date, n), UserCount)
    ensures Top(rows, room, date, n) == [] <==> Selected(rows, room, date) == [] || n == 0
  {
    Ranking.TopProperties(Selected(rows, room, date), UserCount, n);
  }

  /** Every row of the top `n` is a row of that room and date. */
  lemma TopMembers(rows: seq<UserCountRow>, room: nat, date: Date, n: nat)
    ensures forall x :: x in Top(rows, room, date, n) ==> x in rows && x.room == room && x.date == date
  {
    var s := Selected(rows, room, date);
    var sorted := SortDesc(s, UserCount);
    SortDescProperties(s, UserCount);
    forall x | x in Take(sorted, n) ensures x in s {
      assert x in sorted;
      assert x in multiset(sorted);
    }
  }

  /** A matching row left out of the top `n` has a count no larger than any row kept. */
  lemma TopLargest(rows: seq<UserCountRow>, room: nat, date: Date, n: nat)
    ensures forall x :: x in Selected(rows, room, date) ==>
              x in Top(rows, room, date, n) || forall y :: y in Top(rows, room, date, n) ==> y.count >= x.count
  {
    var s := Selected(rows, room, date);
    var sorted := SortDesc(s, UserCount);
    var top := Take(sorted, n);
    SortDescProperties(s, UserCount);
    forall x | x in s ensures x in top || forall y :: y in top ==> y.count >= x.count {
      assert x in multiset(sorted);
      var j :| 0 <= j < |sorted| && sorted[j] == x;
      if j >= |top| {
        forall y | y in top ensures y.count >= x.count {
          var i :| 0 <= i < |top| && top[i] == y;
          assert UserCount(sorted[i]) >= UserCount(sorted[j]);
        }
      }
    }
  }

  /**
   * `{m['account_id']: m['name'] for m in members}.get(account)`: a later member with the
   * same id overwrites an earlier one, so the lookup finds the last.
   */
  function NameIn(members: seq<Member>, account: nat): (r: Option<string>)
    ensures r.None? <==> forall i :: 0 <= i < |members| ==> members[i].account != account
    ensures r.Some? ==> (exists i :: 0 <= i < |members| && members[i].account == account &&
                                     members[i].name == r.value &&
                                     forall j :: i < j < |members| ==> members[j].account != account)
  {
    if members == [] then None
    else
      var last := members[|members| - 1];
      if last.account == account then Some(last.name) else NameIn(members[..|members| - 1], account)
  }
}
