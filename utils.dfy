/**
 * Room roles: the administrator check over a member list and the bulk role change, which
 * splits the members into admin, member and readonly id lists, moves one account into the
 * list of its new role and sends all three lists back as one request.
 */
module Utils {
  import opened Wrappers
  import opened Text
  import opened Ranking
  import opened Db
  import Services

  /** `is_admin`: some member has account id `account` and role `admin`. */
  function IsAdmin(members: seq<Member>, account: nat): (r: bool)
    ensures r <==> exists i :: 0 <= i < |members| && members[i].account == account && members[i].role == "admin"
  {
    if members == [] then false
    else (members[0].account == account && members[0].role == "admin") || IsAdmin(members[1..], account)
  }

  /** The bot check and the member check agree: both ask whether the account is listed as `admin`. */
  lemma BotAdminIsAdmin(members: seq<Member>, bot: nat)
    ensures Services.IsBotAdmin(Some(members), NatToString(bot)) == IsAdmin(members, bot)
  {
    forall i | 0 <= i < |members| ensures NatToString(members[i].account) == NatToString(bot) <==> members[i].account == bot {
      NatToStringInjective(members[i].account, bot);
    }
  }

  predicate DistinctAccounts(members: seq<Member>) {
    forall i, j :: 0 <= i < j < |members| ==> members[i].account != members[j].account
  }

  /** `[m['account_id'] for m in members if m['role'] == role]`. */
  function IdsWithRole(members: seq<Member>, role: string): (ids: seq<nat>)
    ensures |ids| <= |members|
    ensures forall x :: x in ids <==> exists i :: 0 <= i < |members| && members[i].account == x && members[i].role == role
  {
    if members == [] then []
    else
      var last := members[|members| - 1];
      var p := members[..|members| - 1];
      assert forall i :: 0 <= i < |p| ==> p[i] == members[i];
      IdsWithRole(p, role) + (if last.role == role then [last.account] else [])
  }

  /** With distinct accounts, each role's list has no repeats. */
  lemma {:induction false} IdsWithRoleDistinct(members: seq<Member>, role: string)
    requires DistinctAccounts(members)
    ensures Distinct(IdsWithRole(members, role))
  {
    if members != [] {
      var p := members[..|members| - 1];
      var last := members[|members| - 1];
      IdsWithRoleDistinct(p, role);
      assert forall i :: 0 <= i < |p| ==> p[i].account != last.account by {
        forall i | 0 <= i < |p| ensures p[i].account != last.account {
          assert p[i] == members[i];
        }
      }
      var q := IdsWithRole(p, role);
      var full := IdsWithRole(members, role);
      assert last.account !in q;
      forall a, b | 0 <= a < b < |full| ensures full[a] != full[b] {
        if b < |q| {
          assert full[a] == q[a] && full[b] == q[b];
        } else {
          assert full[a] == q[a] && full[b] == last.account;
        }
      }
    }
  }

  /** Members of a role appear in that role's list in input order. */
  lemma {:induction false} IdsWithRoleOrder(members: seq<Member>, role: string, i: nat, j: nat)
    requires DistinctAccounts(members)
    requires i < j < |members| && members[i].role == role && members[j].role == role
    ensures FirstIndex(IdsWithRole(members, role), members[i].account) <
            FirstIndex(IdsWithRole(members, role), members[j].account)
  {
    var p := members[..|members| - 1];
    var last := members[|members| - 1];
    var q := IdsWithRole(p, role);
    var full := IdsWithRole(members, role);
    assert full == q + (if last.role == role then [last.account] else []);
    assert p[i] == members[i];
    assert members[i].account in q;
    if j == |members| - 1 {
      assert forall k :: 0 <= k < |p| ==> p[k].account != last.account by {
        forall k | 0 <= k < |p| ensures p[k].account != last.account {
          assert p[k] == members[k];
        }
      }
      assert full == q + [last.account];
      FirstIndexExtend(q, last.account, members[i].account);
      FirstIndexAppendNew(q, last.account);
    } else {
      assert p[j] == members[j];
      IdsWithRoleOrder(p, role, i, j);
      if last.role == role {
        assert full == q + [last.account];
        assert members[j].account in q by { assert p[j] == members[j]; }
        FirstIndexExtend(q, last.account, members[i].account);
        FirstIndexExtend(q, last.account, members[j].account);
      } else {
        assert full == q;
      }
    }
  }

  /** `ids.remove(x)` guarded by `if x in ids`: drops the first occurrence, if any. */
  function RemoveFirst(ids: seq<nat>, x: nat): (r: seq<nat>)
    ensures x !in ids ==> r == ids
    ensures x in ids ==> r == ids[..FirstIndex(ids, x)] + ids[FirstIndex(ids, x) + 1..]
  {
    if ids == [] then []
    else if ids[0] == x then ids[1..]
    else
      var t := ids[1..];
      var r := RemoveFirst(t, x);
      if x in t then
        var f := FirstIndex(t, x);
        assert FirstIndex(ids, x) == 1 + f;
        assert ids[..1 + f] == [ids[0]] + t[..f];
        assert ids[2 + f..] == t[f + 1..];
        AppendAssoc([ids[0]], t[..f], t[f + 1..]);
        [ids[0]] + r
      else
        [ids[0]] + r
  }

  /** The list with every occurrence of `x` dropped: what the rest of the room sees of a list. */
  function Others(ids: seq<nat>, x: nat): (r: seq<nat>)
    ensures forall y :: y in r <==> y in ids && y != x
  {
    if ids == [] then []
    else (if ids[0] == x then [] else [ids[0]]) + Others(ids[1..], x)
  }

  lemma {:induction false} OthersAppend(ids: seq<nat>, x: nat, y: nat)
    ensures Others(ids + [y], x) == Others(ids, x) + Others([y], x)
  {
    if ids != [] {
      assert (ids + [y])[1..] == ids[1..] + [y];
      OthersAppend(ids[1..], x, y);
    }
  }

  lemma {:induction false} OthersRemoveFirst(ids: seq<nat>, x: nat)
    ensures Others(RemoveFirst(ids, x), x) == Others(ids, x)
  {
    if ids != [] && ids[0] != x {
      OthersRemoveFirst(ids[1..], x);
      assert ([ids[0]] + RemoveFirst(ids[1..], x))[1..] == RemoveFirst(ids[1..], x);
    }
  }

  /** Removing the first occurrence from a list without repeats removes the value altogether. */
  lemma {:induction false} RemoveFirstDistinct(ids: seq<nat>, x: nat)
    requires Distinct(ids)
    ensures x !in RemoveFirst(ids, x)
    ensures Distinct(RemoveFirst(ids, x))
    ensures forall y :: y in RemoveFirst(ids, x) ==> y in ids
  {
    if ids != [] {
      var t := ids[1..];
      assert Distinct(t) by {
        forall i, j | 0 <= i < j < |t| ensures t[i] != t[j] {
          assert t[i] == ids[i + 1] && t[j] == ids[j + 1];
        }
      }
      assert ids[0] !in t;
      RemoveFirstDistinct(t, x);
      if ids[0] != x {
        var r := RemoveFirst(t, x);
        assert RemoveFirst(ids, x) == [ids[0]] + r;
        assert ids[0] !in r;
      }
    }
  }

  /** The three id lists of a role change. */
  datatype RoleLists = RoleLists(admins: seq<nat>, members: seq<nat>, readonly: seq<nat>)

  /** The outcome of a role change: an error for an unknown role, or the request sent. */
  datatype RoleChange = InvalidRole | Request(lists: RoleLists, payload: Services.RolePayload)

  predicate ValidRole(role: string) {
    role == "admin" || role == "member" || role == "readonly"
  }

  /** The list of one role. */
  function ListOf(l: RoleLists, role: string): seq<nat>
    requires ValidRole(role)
  {
    if role == "admin" then l.admins else if role == "member" then l.members else l.readonly
  }

  /** Every member placed in the list of their current role. */
  function Partition(members: seq<Member>): RoleLists {
    RoleLists(IdsWithRole(members, "admin"), IdsWithRole(members, "member"), IdsWithRole(members, "readonly"))
  }

  /** Appends `account` to `into` unless it is already there, and then takes it out of the two others. */
  function MoveInto(into: seq<nat>, other1: seq<nat>, other2: seq<nat>, account: nat): (seq<nat>, seq<nat>, seq<nat>) {
    if account in into then (into, other1, other2)
    else (into + [account], RemoveFirst(other1, account), RemoveFirst(other2, account))
  }

  /** The lists after moving `account` to `role`. */
  function Moved(l: RoleLists, account: nat, role: string): RoleLists
    requires ValidRole(role)
  {
    if role == "admin" then
      var m := MoveInto(l.admins, l.members, l.readonly, account);
      RoleLists(m.0, m.1, m.2)
    else if role == "member" then
      var m := MoveInto(l.members, l.admins, l.readonly, account);
      RoleLists(m.1, m.0, m.2)
    else
      var m := MoveInto(l.readonly, l.admins, l.members, account);
      RoleLists(m.1, m.2, m.0)
  }

  /** The role change as a whole: the request, with each field the comma-joined list. */
  function RoleChangeOf(members: seq<Member>, account: nat, role: string): RoleChange {
    if !ValidRole(role) then InvalidRole
    else
      var l := Moved(Partition(members), account, role);
      Request(l, Services.PermissionsPayload(l.admins, l.members, l.readonly))
  }

  /**
   * `_change_user_role_async`, with the fetched member list passed in: classifies every
   * member by role, moves the account into the list of `role` and builds the request.
   */
  method ChangeUserRole(members: seq<Member>, account: nat, role: string) returns (r: RoleChange)
    ensures r == RoleChangeOf(members, account, role)
    ensures r.InvalidRole? <==> !ValidRole(role)
    ensures r.Request? ==> ParseIds(r.payload.admins) == Some(r.lists.admins) &&
                           ParseIds(r.payload.members) == Some(r.lists.members) &&
                           ParseIds(r.payload.readonly) == Some(r.lists.readonly)
  {
    var adminIds: seq<nat> := [];
    var memberIds: seq<nat> := [];
    var readonlyIds: seq<nat> := [];
    var i := 0;
    while i < |members|
      invariant 0 <= i <= |members|
      invariant adminIds == IdsWithRole(members[..i], "admin")
      invariant memberIds == IdsWithRole(members[..i], "member")
      invariant readonlyIds == IdsWithRole(members[..i], "readonly")
    {
      assert members[..i + 1][..i] == members[..i];
      var m := members[i];
      if m.role == "admin" {
        adminIds := adminIds + [m.account];
      } else if m.role == "member" {
        memberIds := memberIds + [m.account];
      } else if m.role == "readonly" {
        readonlyIds := readonlyIds + [m.account];
      }
      i := i + 1;
    }
    assert members[..i] == members;
    if role == "admin" {
      if account !in adminIds {
        adminIds := adminIds + [account];
        memberIds := RemoveFirst(memberIds, account);
        readonlyIds := RemoveFirst(readonlyIds, account);
      }
    } else if role == "member" {
      if account !in memberIds {
        memberIds := memberIds + [account];
        adminIds := RemoveFirst(adminIds, account);
        readonlyIds := RemoveFirst(readonlyIds, account);
      }
    } else if role == "readonly" {
      if account !in readonlyIds {
        readonlyIds := readonlyIds + [account];
        adminIds := RemoveFirst(adminIds, account);
        memberIds := RemoveFirst(memberIds, account);
      }
    } else {
      return InvalidRole;
    }
    r := Request(RoleLists(adminIds, memberIds, readonlyIds),
                 Services.PermissionsPayload(adminIds, memberIds, readonlyIds));
  }

  /** Before the change, a member with one of the three roles is in that role's list and in no other. */
  lemma PartitionPlacement(members: seq<Member>, i: nat)
    requires DistinctAccounts(members)
    requires i < |members| && ValidRole(members[i].role)
    ensures forall role :: ValidRole(role) ==>
              (members[i].account in ListOf(Partition(members), role) <==> role == members[i].role)
  {
    forall role | ValidRole(role)
      ensures members[i].account in ListOf(Partition(members), role) <==> role == members[i].role
    {
      if members[i].account in IdsWithRole(members, role) {
        var j :| 0 <= j < |members| && members[j].account == members[i].account && members[j].role == role;
        assert j == i;
      }
    }
  }

  /** After a change to a valid role, the account is in that role's list and in neither of the others. */
  lemma TargetPlaced(members: seq<Member>, account: nat, role: string)
    requires DistinctAccounts(members) && ValidRole(role)
    ensures RoleChangeOf(members, account, role).Request?
    ensures forall other :: ValidRole(other) ==>
              (account in ListOf(RoleChangeOf(members, account, role).lists, other) <==> other == role)
  {
    var l := Partition(members);
    IdsWithRoleDistinct(members, "admin");
    IdsWithRoleDistinct(members, "member");
    IdsWithRoleDistinct(members, "readonly");
    RemoveFirstDistinct(l.admins, account);
    RemoveFirstDistinct(l.members, account);
    RemoveFirstDistinct(l.readonly, account);
    if account in ListOf(l, role) {
      var j :| 0 <= j < |members| && members[j].account == account && members[j].role == role;
      PartitionPlacement(members, j);
    }
  }

  /** If the account already has the role, all three lists are left as they were. */
  lemma AlreadyInRole(members: seq<Member>, account: nat, role: string)
    requires ValidRole(role) && account in ListOf(Partition(members), role)
    ensures RoleChangeOf(members, account, role).lists == Partition(members)
  {
  }

  /** Everyone but the account keeps their list, in their original relative order. */
  lemma OthersUnchanged(members: seq<Member>, account: nat, role: string)
    requires ValidRole(role)
    ensures var after := RoleChangeOf(members, account, role).lists;
            var before := Partition(members);
            Others(after.admins, account) == Others(before.admins, account) &&
            Others(after.members, account) == Others(before.members, account) &&
            Others(after.readonly, account) == Others(before.readonly, account)
  {
    var l := Partition(members);
    OthersAppend(l.admins, account, account);
    OthersAppend(l.members, account, account);
    OthersAppend(l.readonly, account, account);
    OthersRemoveFirst(l.admins, account);
    OthersRemoveFirst(l.members, account);
    OthersRemoveFirst(l.readonly, account);
  }
}
