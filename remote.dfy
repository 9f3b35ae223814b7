/**
 * The far end of the user-management endpoint, as far as the plugin can
 * observe it: user accounts keyed by user key, access groups addressed by
 * external id and by group id, and a fault oracle that decides which
 * requests the service (or the network) rejects. This is the environment
 * the clients talk to, not part of the plugin.
 */
module Remote {
  import opened Php
  import opened BaseSoapClient

  /** An id the service hands out: never "" or "0". */
  type Guid = s: string | !EmptyString(s) witness "0000"

  /** The members of the group with an external id; a group never created has none. */
  function Members(groups: map<string, set<string>>, ext: string): set<string>
  {
    if ext in groups then groups[ext] else {}
  }

  /** The group state after adding user ids to one group. */
  function AddMembers(groups: map<string, set<string>>, ext: string, ids: set<string>): (g: map<string, set<string>>)
    ensures Members(g, ext) == Members(groups, ext) + ids
    ensures forall e :: e != ext ==> Members(g, e) == Members(groups, e)
  {
    groups[ext := Members(groups, ext) + ids]
  }

  /** The group state after removing user ids from one group. */
  function RemoveMembers(groups: map<string, set<string>>, ext: string, ids: set<string>): (g: map<string, set<string>>)
    ensures Members(g, ext) == Members(groups, ext) - ids
    ensures forall e :: e != ext ==> Members(g, e) == Members(groups, e)
  {
    groups[ext := Members(groups, ext) - ids]
  }

  /** A string parameter of a request; a missing or non-string one reads as "". */
  function StrArg(params: map<string, Value>, key: string): string
  {
    if key in params && params[key].Str? then params[key].s else ""
  }

  /** The string ids listed in an array parameter. */
  function IdSet(v: Value): (ids: set<string>)
    ensures forall x :: x in ids <==> Str(x) in Items(v)
  {
    set x | x in Items(v) && x.Str? :: x.s
  }

  /** The user key inside a user record sent with CreateUser or CreateUsers. */
  function UserKeyOf(item: Value): string
  {
    var k := Prop(item, "UserKey");
    if k.Str? then k.s else ""
  }

  /** The id the service gives a new account (any injective choice would do). */
  function AccountGuid(key: string): Guid
  {
    "user:" + key
  }

  /** The id the service gives a new group (any injective choice would do). */
  function GroupGuid(ext: string): Guid
  {
    "group:" + ext
  }

  /** The accounts after making sure every key has one; existing accounts keep their id. */
  function WithAccounts(accounts: map<string, Guid>, keys: seq<string>): (a: map<string, Guid>)
    ensures forall k :: k in keys ==> k in a
    ensures forall k :: k in accounts ==> k in a && a[k] == accounts[k]
    ensures forall k :: k in a ==> k in accounts || k in keys
    decreases |keys|
  {
    if |keys| == 0 then accounts
    else
      var k := keys[0];
      var a1 := if k in accounts then accounts else accounts[k := AccountGuid(k)];
      WithAccounts(a1, keys[1..])
  }

  /** Making sure two key lists have accounts, one after the other, is making sure their concatenation does. */
  lemma {:induction false} WithAccountsAppend(accounts: map<string, Guid>, keys: seq<string>, more: seq<string>)
    ensures WithAccounts(WithAccounts(accounts, keys), more) == WithAccounts(accounts, keys + more)
    decreases |keys|
  {
    if |keys| == 0 {
      assert keys + more == more;
    } else {
      var k := keys[0];
      var a1 := if k in accounts then accounts else accounts[k := AccountGuid(k)];
      assert (keys + more)[0] == k;
      assert (keys + more)[1..] == keys[1..] + more;
      assert WithAccounts(accounts, keys) == WithAccounts(a1, keys[1..]);
      assert WithAccounts(accounts, keys + more) == WithAccounts(a1, keys[1..] + more);
      WithAccountsAppend(a1, keys[1..], more);
    }
  }

  /** The user records a CreateUsers reply lists: one per sent record, in order. */
  function UserReplies(accounts: map<string, Guid>, items: seq<Value>): (us: seq<Value>)
    requires forall i :: 0 <= i < |items| ==> UserKeyOf(items[i]) in accounts
    ensures |us| == |items|
  {
    seq(|items|, i requires 0 <= i < |items| =>
      Obj(map["UserKey" := Str(UserKeyOf(items[i])), "UserId" := Str(accounts[UserKeyOf(items[i])])]))
  }

  /** Each reply entry carries the account id of the user key sent at its position. */
  lemma UserRepliesIds(accounts: map<string, Guid>, items: seq<Value>, keys: seq<string>)
    requires keys == seq(|items|, i requires 0 <= i < |items| => UserKeyOf(items[i]))
    requires forall i :: 0 <= i < |items| ==> UserKeyOf(items[i]) in accounts
    ensures forall i :: 0 <= i < |items| ==>
              keys[i] in accounts && Prop(UserReplies(accounts, items)[i], "UserId") == Str(accounts[keys[i]])
  {
  }

  /** A reply whose named result is a non-empty object is answered with that object. */
  lemma ReplyAnswered(methodname: string, v: Value)
    requires v.Obj? && |v.props| > 0
    ensures Answered(methodname, Reply(methodname, v)) == v
  {
    assert NamedResult(methodname, Reply(methodname, v).response) == v;
  }

  /** A reply without properties: what a void SOAP method returns. */
  const Void: Outcome := Returned(map[])

  /** A reply carrying a named result. */
  function Reply(methodname: string, v: Value): Outcome
  {
    Returned(map[methodname + "Result" := v])
  }

  class Panopto {
    /** User key to user id. */
    var accounts: map<string, Guid>
    /** External group id to member user ids. */
    var groups: map<string, set<string>>
    /** Group id to external group id. */
    var groupIds: map<string, string>
    /** Which requests fail, and with what. A failing request changes nothing. */
    const faultFor: SoapRequest -> Option<Failure>

    constructor (accounts: map<string, Guid>, groups: map<string, set<string>>,
                 groupIds: map<string, string>, faultFor: SoapRequest -> Option<Failure>)
      ensures this.accounts == accounts && this.groups == groups
      ensures this.groupIds == groupIds && this.faultFor == faultFor
    {
      this.accounts := accounts;
      this.groups := groups;
      this.groupIds := groupIds;
      this.faultFor := faultFor;
    }

    /** Nothing the service holds changes. */
    twostate predicate Unchanged()
      reads this
    {
      accounts == old(accounts) && groups == old(groups) && groupIds == old(groupIds)
    }

    /** `CreateUser`: make sure the sent user key has an account and answer its id. */
    method CreateUser(req: SoapRequest) returns (answer: Outcome)
      modifies this
      ensures faultFor(req).Some? ==> answer == Thrown(faultFor(req).value) && Unchanged()
      ensures faultFor(req).None? ==>
                var key := UserKeyOf(if "user" in req.params then req.params["user"] else Null);
                && accounts == WithAccounts(old(accounts), [key])
                && answer == Reply("CreateUser", Str(accounts[key]))
                && groups == old(groups) && groupIds == old(groupIds)
    {
      if faultFor(req).Some? {
        return Thrown(faultFor(req).value);
      }
      var key := UserKeyOf(if "user" in req.params then req.params["user"] else Null);
      accounts := WithAccounts(accounts, [key]);
      answer := Reply("CreateUser", Str(accounts[key]));
    }

    /** `CreateUsers`: make sure every sent user key has an account; answer one record per sent user. */
    method CreateUsers(req: SoapRequest) returns (answer: Outcome)
      modifies this
      ensures faultFor(req).Some? ==> answer == Thrown(faultFor(req).value) && Unchanged()
      ensures faultFor(req).None? ==>
                var items := Items(if "users" in req.params then req.params["users"] else Null);
                && accounts == WithAccounts(old(accounts), seq(|items|, i requires 0 <= i < |items| => UserKeyOf(items[i])))
                && (forall i :: 0 <= i < |items| ==> UserKeyOf(items[i]) in accounts)
                && answer == Reply("CreateUsers", Obj(map["User" := List(UserReplies(accounts, items))]))
                && groups == old(groups) && groupIds == old(groupIds)
    {
      if faultFor(req).Some? {
        return Thrown(faultFor(req).value);
      }
      var items := Items(if "users" in req.params then req.params["users"] else Null);
      var keys := seq(|items|, i requires 0 <= i < |items| => UserKeyOf(items[i]));
      accounts := WithAccounts(accounts, keys);
      assert forall i :: 0 <= i < |items| ==> UserKeyOf(items[i]) == keys[i] && keys[i] in keys;
      answer := Reply("CreateUsers", Obj(map["User" := List(UserReplies(accounts, items))]));
    }

    /** `AddMembersToExternalGroup`: add the sent ids to the group with the sent external id. */
    method AddMembersToExternalGroup(req: SoapRequest) returns (answer: Outcome)
      modifies this
      ensures faultFor(req).Some? ==> answer == Thrown(faultFor(req).value) && Unchanged()
      ensures faultFor(req).None? ==>
                && groups == AddMembers(old(groups), StrArg(req.params, "externalGroupId"),
                                        IdSet(if "memberIds" in req.params then req.params["memberIds"] else Null))
                && answer == Void && accounts == old(accounts) && groupIds == old(groupIds)
    {
      if faultFor(req).Some? {
        return Thrown(faultFor(req).value);
      }
      groups := AddMembers(groups, StrArg(req.params, "externalGroupId"),
                           IdSet(if "memberIds" in req.params then req.params["memberIds"] else Null));
      answer := Void;
    }

    /** `RemoveMembersFromExternalGroup`: remove the sent ids from the group with the sent external id. */
    method RemoveMembersFromExternalGroup(req: SoapRequest) returns (answer: Outcome)
      modifies this
      ensures faultFor(req).Some? ==> answer == Thrown(faultFor(req).value) && Unchanged()
      ensures faultFor(req).None? ==>
                && groups == RemoveMembers(old(groups), StrArg(req.params, "externalGroupId"),
                                           IdSet(if "memberIds" in req.params then req.params["memberIds"] else Null))
                && answer == Void && accounts == old(accounts) && groupIds == old(groupIds)
    {
      if faultFor(req).Some? {
        return Thrown(faultFor(req).value);
      }
      groups := RemoveMembers(groups, StrArg(req.params, "externalGroupId"),
                              IdSet(if "memberIds" in req.params then req.params["memberIds"] else Null));
      answer := Void;
    }

    /** `CreateExternalGroup`: create (or reuse) the group with the sent external id, with the sent members. */
    method CreateExternalGroup(req: SoapRequest) returns (answer: Outcome)
      modifies this
      ensures faultFor(req).Some? ==> answer == Thrown(faultFor(req).value) && Unchanged()
      ensures faultFor(req).None? ==>
                var ext := StrArg(req.params, "externalId");
                && groups == AddMembers(old(groups), ext,
                                        IdSet(if "memberIds" in req.params then req.params["memberIds"] else Null))
                && groupIds == old(groupIds)[GroupGuid(ext) := ext]
                && answer == Reply("CreateExternalGroup", Obj(map["Id" := Str(GroupGuid(ext)),
                                   "Name" := Str(StrArg(req.params, "groupName")), "ExternalId" := Str(ext)]))
                && accounts == old(accounts)
    {
      if faultFor(req).Some? {
        return Thrown(faultFor(req).value);
      }
      var ext := StrArg(req.params, "externalId");
      groups := AddMembers(groups, ext, IdSet(if "memberIds" in req.params then req.params["memberIds"] else Null));
      groupIds := groupIds[GroupGuid(ext) := ext];
      answer := Reply("CreateExternalGroup", Obj(map["Id" := Str(GroupGuid(ext)),
                      "Name" := Str(StrArg(req.params, "groupName")), "ExternalId" := Str(ext)]));
    }

    /** `GetGroup`: the group with the sent group id; no result for an unknown id. */
    method GetGroup(req: SoapRequest) returns (answer: Outcome)
      modifies this
      ensures Unchanged()
      ensures faultFor(req).Some? ==> answer == Thrown(faultFor(req).value)
      ensures faultFor(req).None? ==>
                var gid := StrArg(req.params, "groupId");
                && (gid in groupIds ==>
                      answer == Reply("GetGroup", Obj(map["Id" := Str(gid), "ExternalId" := Str(groupIds[gid])])))
                && (gid !in groupIds ==> answer == Void)
    {
      if faultFor(req).Some? {
        return Thrown(faultFor(req).value);
      }
      var gid := StrArg(req.params, "groupId");
      if gid in groupIds {
        answer := Reply("GetGroup", Obj(map["Id" := Str(gid), "ExternalId" := Str(groupIds[gid])]));
      } else {
        answer := Void;
      }
    }

    /**
     * `GetUsersInGroup`: the member ids of the group with the sent group id.
     * A group without members, or an unknown id, is answered with an object
     * without properties.
     */
    method GetUsersInGroup(req: SoapRequest) returns (answer: Outcome)
      modifies this
      ensures Unchanged()
      ensures faultFor(req).Some? ==> answer == Thrown(faultFor(req).value)
      ensures faultFor(req).None? ==>
                var gid := StrArg(req.params, "groupId");
                && (gid !in groupIds || Members(groups, groupIds[gid]) == {} ==>
                      answer == Reply("GetUsersInGroup", Obj(map[])))
                && (gid in groupIds && Members(groups, groupIds[gid]) != {} ==>
                      exists ids: seq<Value> :: answer == Reply("GetUsersInGroup", Obj(map["guid" := List(ids)]))
                        && IdSet(List(ids)) == Members(groups, groupIds[gid]))
    {
      if faultFor(req).Some? {
        return Thrown(faultFor(req).value);
      }
      var gid := StrArg(req.params, "groupId");
      if gid in groupIds && Members(groups, groupIds[gid]) != {} {
        var ids := Listing(Members(groups, groupIds[gid]));
        answer := Reply("GetUsersInGroup", Obj(map["guid" := List(ids)]));
      } else {
        answer := Reply("GetUsersInGroup", Obj(map[]));
      }
    }

    /** `DeleteGroup`: forget the group with the sent group id and its members. */
    method DeleteGroup(req: SoapRequest) returns (answer: Outcome)
      modifies this
      ensures faultFor(req).Some? ==> answer == Thrown(faultFor(req).value) && Unchanged()
      ensures faultFor(req).None? ==>
                var gid := StrArg(req.params, "groupId");
                && groupIds == old(groupIds) - {gid}
                && groups == (if gid in old(groupIds) then old(groups) - {old(groupIds)[gid]} else old(groups))
                && answer == Void && accounts == old(accounts)
    {
      if faultFor(req).Some? {
        return Thrown(faultFor(req).value);
      }
      var gid := StrArg(req.params, "groupId");
      if gid in groupIds {
        groups := groups - {groupIds[gid]};
      }
      groupIds := groupIds - {gid};
      answer := Void;
    }
  }

  /** The ids of a set, listed in some order. */
  method Listing(s: set<string>) returns (ids: seq<Value>)
    ensures IdSet(List(ids)) == s
  {
    ids := [];
    var rest := s;
    while rest != {}
      invariant rest <= s
      invariant IdSet(List(ids)) == s - rest
      decreases rest
    {
      var x :| x in rest;
      ids := ids + [Str(x)];
      rest := rest - {x};
    }
  }
}
