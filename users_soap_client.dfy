/**
 * The client of the user-management endpoint: accounts and the access
 * groups that give course members their folder roles. Every operation
 * hands its request to the service and classifies the answer through the
 * base client, so its outcome is also visible through `success()`.
 */
module UsersSoapClient {
  import opened Php
  import opened BaseSoapClient
  import opened Remote

  /** The fields of a Moodle user record the plugin sends. */
  datatype User = User(username: string, email: string, firstname: string, lastname: string)

  /** The account record sent for one user: keyed by instance and username, no system role, no id yet. */
  function UserItem(instance: string, u: User): (item: Value)
    ensures Prop(item, "UserKey") == Str(InstanceUsername(instance, u.username))
    ensures UserKeyOf(item) == InstanceUsername(instance, u.username)
    ensures Prop(item, "SystemRole") == Str("None") && Prop(item, "UserId") == Null
    ensures Prop(item, "Email") == Str(u.email)
  {
    Obj(map["Email" := Str(u.email), "FirstName" := Str(u.firstname), "LastName" := Str(u.lastname),
            "UserKey" := Str(InstanceUsername(instance, u.username)),
            "EmailSessionNotifications" := Int(0), "GroupMemberships" := Null, "SystemRole" := Str("None"),
            "UserBio" := Null, "UserId" := Null, "UserSettingsUrl" := Null])
  }

  /** The account records sent for a list of users: one per user, in order. */
  function UserItems(instance: string, users: seq<User>): (items: seq<Value>)
    ensures |items| == |users|
    ensures forall i :: 0 <= i < |users| ==> items[i] == UserItem(instance, users[i])
  {
    seq(|users|, i requires 0 <= i < |users| => UserItem(instance, users[i]))
  }

  /** The user keys of a list of users, in order. */
  function UserKeys(instance: string, users: seq<User>): (keys: seq<string>)
    ensures |keys| == |users|
    ensures forall i :: 0 <= i < |users| ==> keys[i] == InstanceUsername(instance, users[i].username)
  {
    seq(|users|, i requires 0 <= i < |users| => InstanceUsername(instance, users[i].username))
  }

  /** The parameters of `CreateUsers`: the account records to create. */
  function CreateUsersParams(items: seq<Value>): (params: map<string, Value>)
    ensures "users" in params && Items(params["users"]) == items
  {
    map["users" := List(items)]
  }

  /** The `CreateUsers` request a client sends for a list of users. */
  function CreateUsersRequest(c: SoapClient, users: seq<User>): SoapRequest
  {
    c.RequestFor("CreateUsers", CreateUsersParams(UserItems(c.apiinstance, users)), "")
  }

  /** The keys the service reads from the users' account records are the users' keys. */
  lemma UserItemKeys(instance: string, users: seq<User>)
    ensures var items := UserItems(instance, users);
            seq(|items|, i requires 0 <= i < |items| => UserKeyOf(items[i])) == UserKeys(instance, users)
  {
  }

  /** The parameters of `CreateUser`. */
  function CreateUserParams(instance: string, u: User): map<string, Value>
  {
    map["user" := UserItem(instance, u), "initialPassword" := Null]
  }

  /** The parameters of `CreateExternalGroup`. */
  function CreateGroupParams(instance: string, courseid: string, role: int, memberids: Value): (params: map<string, Value>)
    ensures StrArg(params, "externalId") == InstanceGroupExternalId(courseid, role)
    ensures StrArg(params, "groupName") == InstanceGroupExternalName(courseid, role)
    ensures "memberIds" in params && params["memberIds"] == memberids
  {
    map["groupName" := Str(InstanceGroupExternalName(courseid, role)), "externalProvider" := Str(instance),
        "externalId" := Str(InstanceGroupExternalId(courseid, role)), "memberIds" := memberids]
  }

  /** The parameters of the calls that add members to, or remove members from, a course group. */
  function MembersParams(instance: string, courseid: string, role: int, memberids: Value): map<string, Value>
  {
    map["externalProviderName" := Str(instance), "externalGroupId" := Str(InstanceGroupExternalId(courseid, role)),
        "memberIds" := memberids]
  }

  /** The id a service answers with for a user key, existing or new. */
  function AccountFor(accounts: map<string, Guid>, key: string): (id: Guid)
    ensures key in accounts ==> id == accounts[key]
  {
    WithAccounts(accounts, [key])[key]
  }

  /**
   * The loop of `create_users` that builds the request payload: exactly one
   * account record per user, in the order given.
   */
  method UserPayloads(instance: string, users: seq<User>) returns (items: seq<Value>)
    ensures items == UserItems(instance, users)
  {
    items := [];
    var k := 0;
    while k < |users|
      invariant 0 <= k <= |users|
      invariant items == UserItems(instance, users[..k])
    {
      items := items + [UserItem(instance, users[k])];
      k := k + 1;
    }
    assert users[..k] == users;
  }

  /**
   * `create_user`: make sure the user has an account and answer its id.
   * The account key is the user key of this client's instance.
   */
  method CreateUser(c: SoapClient, svc: Panopto, u: User) returns (id: Value)
    modifies c, svc
    ensures var req := c.RequestFor("CreateUser", CreateUserParams(c.apiinstance, u), "");
            && c.request == Some(req)
            && svc.groups == old(svc.groups) && svc.groupIds == old(svc.groupIds)
            && (svc.faultFor(req).Some? ==>
                  id == Null && !c.Success() && c.result == Failed(svc.faultFor(req).value)
                  && svc.accounts == old(svc.accounts))
            && (svc.faultFor(req).None? ==>
                  var key := InstanceUsername(c.apiinstance, u.username);
                  && svc.accounts == WithAccounts(old(svc.accounts), [key])
                  && id == Str(AccountFor(old(svc.accounts), key)) && c.Success())
  {
    var params := map["user" := UserItem(c.apiinstance, u), "initialPassword" := Null];
    var req := c.RequestFor("CreateUser", params, "");
    var answer := svc.CreateUser(req);
    var r := c.CallSoapMethod("CreateUser", params, "", answer);
    NullishIsEmpty(r);
    if !c.Success() || IsNullish(r) {
      return Null;
    }
    return r;
  }

  /**
   * `create_users`: make sure every user has an account. No call for an
   * empty list; otherwise the answer lists one record per user, in order,
   * each with the id of that user's account.
   */
  method CreateUsers(c: SoapClient, svc: Panopto, users: seq<User>) returns (created: Value)
    modifies c, svc
    ensures |users| == 0 ==>
              created == Null && c.request == old(c.request) && c.result == old(c.result)
              && svc.accounts == old(svc.accounts)
    ensures svc.groups == old(svc.groups) && svc.groupIds == old(svc.groupIds)
    ensures |users| > 0 ==>
              var req := CreateUsersRequest(c, users);
              && c.request == Some(req)
              && (svc.faultFor(req).Some? ==>
                    created == Null && !c.Success() && c.result == Failed(svc.faultFor(req).value)
                    && svc.accounts == old(svc.accounts))
              && (svc.faultFor(req).None? ==>
                    var keys := UserKeys(c.apiinstance, users);
                    && svc.accounts == WithAccounts(old(svc.accounts), keys)
                    && c.Success()
                    && created.List? && |created.items| == |users|
                    && forall i :: 0 <= i < |users| ==>
                         keys[i] in svc.accounts && Prop(created.items[i], "UserId") == Str(svc.accounts[keys[i]]))
  {
    if |users| == 0 {
      return Null;
    }
    var items := UserPayloads(c.apiinstance, users);
    var params := CreateUsersParams(items);
    var req := c.RequestFor("CreateUsers", params, "");
    var answer := svc.CreateUsers(req);
    ghost var keys := UserKeys(c.apiinstance, users);
    UserItemKeys(c.apiinstance, users);
    var r := c.CallSoapMethod("CreateUsers", params, "", answer);
    NullishIsEmpty(r);
    if svc.faultFor(req).None? {
      ReplyAnswered("CreateUsers", Obj(map["User" := List(UserReplies(svc.accounts, items))]));
      UserRepliesIds(svc.accounts, items, keys);
    }
    if !c.Success() || IsNullish(r) || !IsArray(Prop(r, "User")) {
      return Null;
    }
    return Prop(r, "User");
  }

  /**
   * `create_group_for_course`: create the course's access group for a
   * role, named and keyed by the course and role. No call for an empty
   * course id.
   */
  method CreateGroupForCourse(c: SoapClient, svc: Panopto, courseid: string,
                              role: int := FOLDER_ROLE_VIEWER, memberids: Value := Null)
    returns (group: Value)
    modifies c, svc
    ensures svc.accounts == old(svc.accounts)
    ensures EmptyString(courseid) ==>
              group == Null && c.request == old(c.request) && c.result == old(c.result)
              && svc.groups == old(svc.groups) && svc.groupIds == old(svc.groupIds)
    ensures !EmptyString(courseid) ==>
              var req := c.RequestFor("CreateExternalGroup", CreateGroupParams(c.apiinstance, courseid, role, memberids), "");
              var ext := InstanceGroupExternalId(courseid, role);
              && c.request == Some(req)
              && (svc.faultFor(req).Some? ==>
                    group == Null && !c.Success() && c.result == Failed(svc.faultFor(req).value)
                    && svc.groups == old(svc.groups) && svc.groupIds == old(svc.groupIds))
              && (svc.faultFor(req).None? ==>
                    && group == Obj(map["Id" := Str(GroupGuid(ext)),
                                        "Name" := Str(InstanceGroupExternalName(courseid, role)),
                                        "ExternalId" := Str(ext)])
                    && c.Success()
                    && svc.groups == AddMembers(old(svc.groups), ext, IdSet(memberids))
                    && svc.groupIds == old(svc.groupIds)[GroupGuid(ext) := ext])
  {
    if EmptyString(courseid) {
      return Null;
    }
    var params := CreateGroupParams(c.apiinstance, courseid, role, memberids);
    var req := c.RequestFor("CreateExternalGroup", params, "");
    var answer := svc.CreateExternalGroup(req);
    var r := c.CallSoapMethod("CreateExternalGroup", params, "", answer);
    NullishIsEmpty(r);
    if svc.faultFor(req).None? {
      var ext := InstanceGroupExternalId(courseid, role);
      ReplyAnswered("CreateExternalGroup", Obj(map["Id" := Str(GroupGuid(ext)),
                    "Name" := Str(InstanceGroupExternalName(courseid, role)), "ExternalId" := Str(ext)]));
    }
    if !c.Success() || IsNullish(r) {
      return Null;
    }
    return r;
  }

  /** `get_group`: the group with a group id. No call for an empty id. */
  method GetGroup(c: SoapClient, svc: Panopto, groupid: string) returns (group: Value)
    modifies c, svc
    ensures svc.accounts == old(svc.accounts) && svc.groups == old(svc.groups) && svc.groupIds == old(svc.groupIds)
    ensures EmptyString(groupid) ==> group == Null && c.request == old(c.request) && c.result == old(c.result)
    ensures !EmptyString(groupid) ==>
              var req := c.RequestFor("GetGroup", map["groupId" := Str(groupid)], "");
              && c.request == Some(req)
              && (svc.faultFor(req).Some? ==> group == Null && !c.Success())
              && (svc.faultFor(req).None? && groupid in svc.groupIds ==>
                    group == Obj(map["Id" := Str(groupid), "ExternalId" := Str(svc.groupIds[groupid])]))
              && (svc.faultFor(req).None? && groupid !in svc.groupIds ==> group == Null && c.Success())
  {
    if EmptyString(groupid) {
      return Null;
    }
    var params := map["groupId" := Str(groupid)];
    var answer := svc.GetGroup(c.RequestFor("GetGroup", params, ""));
    var r := c.CallSoapMethod("GetGroup", params, "", answer);
    NullishIsEmpty(r);
    if !c.Success() || IsNullish(r) {
      return Null;
    }
    return r;
  }

  /**
   * `get_users_in_group`: the ids of a group's members. Null for an empty
   * id, on failure, and for a group without members; in that last case the
   * service answers with an object without properties, so the last result
   * still describes the previous call.
   */
  method GetUsersInGroup(c: SoapClient, svc: Panopto, groupid: string) returns (ids: Value)
    modifies c, svc
    ensures svc.accounts == old(svc.accounts) && svc.groups == old(svc.groups) && svc.groupIds == old(svc.groupIds)
    ensures EmptyString(groupid) ==> ids == Null && c.request == old(c.request) && c.result == old(c.result)
    ensures !EmptyString(groupid) ==>
              var req := c.RequestFor("GetUsersInGroup", map["groupId" := Str(groupid)], "");
              && c.request == Some(req)
              && (svc.faultFor(req).Some? ==> ids == Null && !c.Success())
              && (svc.faultFor(req).None? && groupid in svc.groupIds && Members(svc.groups, svc.groupIds[groupid]) != {} ==>
                    ids.List? && IdSet(ids) == Members(svc.groups, svc.groupIds[groupid]) && c.Success())
              && (svc.faultFor(req).None? && (groupid !in svc.groupIds || Members(svc.groups, svc.groupIds[groupid]) == {}) ==>
                    ids == Null && c.result == old(c.result))
    ensures ids != Null ==> ids.List? && |ids.items| > 0
  {
    if EmptyString(groupid) {
      return Null;
    }
    var params := map["groupId" := Str(groupid)];
    var answer := svc.GetUsersInGroup(c.RequestFor("GetUsersInGroup", params, ""));
    var r := c.CallSoapMethod("GetUsersInGroup", params, "", answer);
    NullishIsEmpty(r);
    if !c.Success() || IsNullish(r) || !IsArray(Prop(r, "guid")) {
      return Null;
    }
    ids := Prop(r, "guid");
    assert ids.items != [] by {
      assert IdSet(ids) != {};
    }
  }

  /** `delete_group`: delete a group by id. No call for an empty id. */
  method DeleteGroup(c: SoapClient, svc: Panopto, groupid: string)
    modifies c, svc
    ensures svc.accounts == old(svc.accounts)
    ensures EmptyString(groupid) ==>
              c.request == old(c.request) && c.result == old(c.result)
              && svc.groups == old(svc.groups) && svc.groupIds == old(svc.groupIds)
    ensures !EmptyString(groupid) ==>
              var req := c.RequestFor("DeleteGroup", map["groupId" := Str(groupid)], "");
              && c.request == Some(req)
              && (svc.faultFor(req).Some? ==>
                    !c.Success() && svc.groups == old(svc.groups) && svc.groupIds == old(svc.groupIds))
              && (svc.faultFor(req).None? ==>
                    && c.Success()
                    && svc.groupIds == old(svc.groupIds) - {groupid}
                    && svc.groups == (if groupid in old(svc.groupIds)
                                      then old(svc.groups) - {old(svc.groupIds)[groupid]} else old(svc.groups)))
  {
    if EmptyString(groupid) {
      return;
    }
    var params := map["groupId" := Str(groupid)];
    var answer := svc.DeleteGroup(c.RequestFor("DeleteGroup", params, ""));
    var _ := c.CallSoapMethod("DeleteGroup", params, "", answer);
  }

  /**
   * `add_users_to_group`: add members to the course's group for a role
   * (viewers unless a role is given), addressed by its external id under
   * this client's instance.
   */
  method AddUsersToGroup(c: SoapClient, svc: Panopto, courseid: string, memberids: Value,
                         role: int := FOLDER_ROLE_VIEWER)
    modifies c, svc
    ensures svc.accounts == old(svc.accounts) && svc.groupIds == old(svc.groupIds)
    ensures var req := c.RequestFor("AddMembersToExternalGroup",
                                    MembersParams(c.apiinstance, courseid, role, memberids), "");
            && c.request == Some(req)
            && (svc.faultFor(req).Some? ==>
                  !c.Success() && c.result == Failed(svc.faultFor(req).value) && svc.groups == old(svc.groups))
            && (svc.faultFor(req).None? ==>
                  c.Success() && c.result == Ok(Null)
                  && svc.groups == AddMembers(old(svc.groups), InstanceGroupExternalId(courseid, role), IdSet(memberids)))
  {
    var params := map["externalProviderName" := Str(c.apiinstance),
                      "externalGroupId" := Str(InstanceGroupExternalId(courseid, role)),
                      "memberIds" := memberids];
    var answer := svc.AddMembersToExternalGroup(c.RequestFor("AddMembersToExternalGroup", params, ""));
    var _ := c.CallSoapMethod("AddMembersToExternalGroup", params, "", answer);
  }

  /**
   * `remove_users_from_group`: remove members from the course's group for
   * a role (viewers unless a role is given).
   */
  method RemoveUsersFromGroup(c: SoapClient, svc: Panopto, courseid: string, memberids: Value,
                              role: int := FOLDER_ROLE_VIEWER)
    modifies c, svc
    ensures svc.accounts == old(svc.accounts) && svc.groupIds == old(svc.groupIds)
    ensures var req := c.RequestFor("RemoveMembersFromExternalGroup",
                                    MembersParams(c.apiinstance, courseid, role, memberids), "");
            && c.request == Some(req)
            && (svc.faultFor(req).Some? ==>
                  !c.Success() && c.result == Failed(svc.faultFor(req).value) && svc.groups == old(svc.groups))
            && (svc.faultFor(req).None? ==>
                  c.Success() && c.result == Ok(Null)
                  && svc.groups == RemoveMembers(old(svc.groups), InstanceGroupExternalId(courseid, role), IdSet(memberids)))
  {
    var params := map["externalProviderName" := Str(c.apiinstance),
                      "externalGroupId" := Str(InstanceGroupExternalId(courseid, role)),
                      "memberIds" := memberids];
    var answer := svc.RemoveMembersFromExternalGroup(c.RequestFor("RemoveMembersFromExternalGroup", params, ""));
    var _ := c.CallSoapMethod("RemoveMembersFromExternalGroup", params, "", answer);
  }
}
