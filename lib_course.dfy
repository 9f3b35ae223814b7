/**
 * What the block does for a course on the service: its folder, the pair of
 * access groups (creators and viewers) that stand for its enrolments, and
 * keeping those groups in step with the roles users hold in the course.
 * The role lookups of the learning platform are inputs: the role ids a user
 * holds, the roles that can be assigned in the course, and the users who
 * hold a creator or a viewer role.
 */
module LibCourse {
  import opened Php
  import opened Assoc
  import opened BaseSoapClient
  import opened FoldersSoapClient
  import opened Remote
  import opened UsersSoapClient
  import opened LibConfig

  /** A service that answers every request without a fault. */
  ghost predicate Answers(svc: Panopto)
  {
    forall r :: svc.faultFor(r).None?
  }

  /**
   * `create_course_folder`: the folder provisioned for a course, or null
   * when the call fails or gives nothing back.
   */
  method CreateCourseFolder(c: SoapClient, courseid: string, coursename: string, answer: Outcome)
    returns (folder: Value)
    modifies c
    ensures EmptyString(courseid) || EmptyString(coursename) ==>
              folder == Null && c.request == old(c.request) && c.result == old(c.result)
    ensures !EmptyString(courseid) && !EmptyString(coursename) ==>
              (folder != Null <==> Answered("ProvisionExternalCourse", answer) != Null)
    ensures folder != Null ==> c.Success() && folder == Answered("ProvisionExternalCourse", answer)
    ensures answer.Thrown? ==> folder == Null
  {
    folder := CreateFolder(c, coursename, courseid, answer);
    NullishIsEmpty(folder);
    if !c.Success() || IsNullish(folder) {
      return Null;
    }
  }

  /** The first folder a course-access answer reports, if any. */
  function FirstFolder(answer: Outcome): (folder: Value)
    ensures answer.Thrown? ==> folder == Null
  {
    var fs := Prop(Answered("SetExternalCourseAccess", answer), "Folder");
    if fs.List? && |fs.items| > 0 then fs.items[0] else Null
  }

  /**
   * `set_course_folder`: give a folder the course's access groups; true
   * exactly when the call succeeds and reports a folder that is not null.
   */
  method SetCourseFolder(c: SoapClient, courseid: string, folderid: string, answer: Outcome) returns (ok: bool)
    modifies c
    ensures ok <==> && !EmptyString(folderid) && !EmptyString(courseid)
                    && !AfterCall("SetExternalCourseAccess", answer, old(c.result)).Failed?
                    && !IsNullish(FirstFolder(answer))
    ensures ok ==> c.request == Some(c.RequestFor("SetExternalCourseAccess", CourseAccessParams(folderid, courseid), ""))
    ensures answer.Thrown? ==> !ok
  {
    var folder := SetFolderGroups(c, folderid, courseid, answer);
    if !c.Success() || IsNullish(folder) {
      return false;
    }
    return true;
  }

  /** The group object the service answers when it creates a course's group for a role. */
  function CreatedGroup(courseid: string, role: int): (group: Value)
    ensures Prop(group, "ExternalId") == Str(InstanceGroupExternalId(courseid, role))
    ensures Prop(group, "Id") == Str(GroupGuid(InstanceGroupExternalId(courseid, role)))
    ensures !IsNullish(group)
  {
    var ext := InstanceGroupExternalId(courseid, role);
    Obj(map["Id" := Str(GroupGuid(ext)), "Name" := Str(InstanceGroupExternalName(courseid, role)), "ExternalId" := Str(ext)])
  }

  /** The request that creates a course's group for a role, with no members. */
  function CreateGroupRequest(c: SoapClient, courseid: string, role: int): SoapRequest
  {
    c.RequestFor("CreateExternalGroup", CreateGroupParams(c.apiinstance, courseid, role, Null), "")
  }

  /**
   * `create_course_groups`: create the course's creators group, then its
   * viewers group. An empty course id makes no call; if the creators group
   * is not created neither is reported and the viewers group is not
   * attempted; if only the viewers group fails, the creators group alone is
   * reported.
   */
  method CreateCourseGroups(c: SoapClient, svc: Panopto, courseid: string) returns (creators: Value, viewers: Value)
    modifies c, svc
    ensures svc.accounts == old(svc.accounts)
    ensures EmptyString(courseid) ==>
              && creators == Null && viewers == Null
              && c.request == old(c.request) && c.result == old(c.result)
              && svc.groups == old(svc.groups) && svc.groupIds == old(svc.groupIds)
    ensures !EmptyString(courseid) && svc.faultFor(CreateGroupRequest(c, courseid, FOLDER_ROLE_CREATOR)).Some? ==>
              && creators == Null && viewers == Null
              && c.request == Some(CreateGroupRequest(c, courseid, FOLDER_ROLE_CREATOR))
              && svc.groups == old(svc.groups) && svc.groupIds == old(svc.groupIds)
    ensures !EmptyString(courseid) && svc.faultFor(CreateGroupRequest(c, courseid, FOLDER_ROLE_CREATOR)).None? ==>
              var cext := InstanceGroupExternalId(courseid, FOLDER_ROLE_CREATOR);
              var vext := InstanceGroupExternalId(courseid, FOLDER_ROLE_VIEWER);
              && creators == CreatedGroup(courseid, FOLDER_ROLE_CREATOR)
              && c.request == Some(CreateGroupRequest(c, courseid, FOLDER_ROLE_VIEWER))
              && (svc.faultFor(CreateGroupRequest(c, courseid, FOLDER_ROLE_VIEWER)).Some? ==>
                    && viewers == Null
                    && svc.groups == AddMembers(old(svc.groups), cext, {})
                    && svc.groupIds == old(svc.groupIds)[GroupGuid(cext) := cext])
              && (svc.faultFor(CreateGroupRequest(c, courseid, FOLDER_ROLE_VIEWER)).None? ==>
                    && viewers == CreatedGroup(courseid, FOLDER_ROLE_VIEWER)
                    && svc.groups == AddMembers(AddMembers(old(svc.groups), cext, {}), vext, {})
                    && svc.groupIds == old(svc.groupIds)[GroupGuid(cext) := cext][GroupGuid(vext) := vext])
    ensures viewers != Null ==> creators != Null && Prop(creators, "Id") != Prop(viewers, "Id")
  {
    if EmptyString(courseid) {
      return Null, Null;
    }
    CourseGroupIdsDistinct(courseid);
    assert IdSet(Null) == {};
    creators := CreateGroupForCourse(c, svc, courseid, FOLDER_ROLE_CREATOR);
    if IsNullish(creators) {
      return Null, Null;
    }
    viewers := CreateGroupForCourse(c, svc, courseid, FOLDER_ROLE_VIEWER);
    if IsNullish(viewers) {
      return creators, Null;
    }
    assert GroupGuid(InstanceGroupExternalId(courseid, FOLDER_ROLE_CREATOR))
           != GroupGuid(InstanceGroupExternalId(courseid, FOLDER_ROLE_VIEWER));
  }

  /** The delete of a group id goes through: the id is not empty and its request does not fault. */
  predicate Deletes(c: SoapClient, svc: Panopto, groupid: string)
  {
    !EmptyString(groupid) && svc.faultFor(c.RequestFor("DeleteGroup", map["groupId" := Str(groupid)], "")).None?
  }

  /**
   * `delete_course_groups`: delete the creators group and the viewers group
   * by id, skipping an empty id. An empty id or a faulted delete keeps its
   * group; every other id and group is kept.
   */
  method DeleteCourseGroups(c: SoapClient, svc: Panopto, creatorsgroupid: string, viewersgroupid: string)
    modifies c, svc
    ensures svc.accounts == old(svc.accounts)
    ensures EmptyString(creatorsgroupid) && EmptyString(viewersgroupid) ==>
              && c.request == old(c.request) && c.result == old(c.result)
              && svc.groups == old(svc.groups) && svc.groupIds == old(svc.groupIds)
    ensures forall g :: g in old(svc.groupIds) && g != creatorsgroupid && g != viewersgroupid ==>
              g in svc.groupIds && svc.groupIds[g] == old(svc.groupIds)[g]
    ensures svc.groupIds.Keys <= old(svc.groupIds).Keys
    ensures !EmptyString(creatorsgroupid)
            && svc.faultFor(c.RequestFor("DeleteGroup", map["groupId" := Str(creatorsgroupid)], "")).None? ==>
              creatorsgroupid !in svc.groupIds
    ensures !EmptyString(viewersgroupid)
            && svc.faultFor(c.RequestFor("DeleteGroup", map["groupId" := Str(viewersgroupid)], "")).None? ==>
              viewersgroupid !in svc.groupIds
    ensures var gone := (if Deletes(c, svc, creatorsgroupid) then {creatorsgroupid} else {})
                        + (if Deletes(c, svc, viewersgroupid) then {viewersgroupid} else {});
            && svc.groupIds == old(svc.groupIds) - gone
            && svc.groups == WithoutGroups(old(svc.groups), old(svc.groupIds), gone)
    ensures !EmptyString(viewersgroupid) ==> (c.Success() <==> Deletes(c, svc, viewersgroupid))
    ensures EmptyString(viewersgroupid) && !EmptyString(creatorsgroupid) ==>
              (c.Success() <==> Deletes(c, svc, creatorsgroupid))
  {
    ghost var groups0, ids0 := svc.groups, svc.groupIds;
    WithoutGroupsStep(groups0, ids0, {}, creatorsgroupid);
    if EmptyString(creatorsgroupid) && EmptyString(viewersgroupid) {
      return;
    }
    if !EmptyString(creatorsgroupid) {
      DeleteGroup(c, svc, creatorsgroupid);
    }
    ghost var gone := if Deletes(c, svc, creatorsgroupid) then {creatorsgroupid} else {};
    assert svc.groupIds == ids0 - gone && svc.groups == WithoutGroups(groups0, ids0, gone);
    WithoutGroupsStep(groups0, ids0, gone, viewersgroupid);
    if !EmptyString(viewersgroupid) {
      DeleteGroup(c, svc, viewersgroupid);
    }
    gone := gone + if Deletes(c, svc, viewersgroupid) then {viewersgroupid} else {};
    assert svc.groupIds == ids0 - gone && svc.groups == WithoutGroups(groups0, ids0, gone);
  }

  /** The groups left once the ids in `gone` are deleted: each deleted id that names a group takes it along. */
  function WithoutGroups(groups: map<string, set<string>>, ids: map<string, string>, gone: set<string>)
    : map<string, set<string>>
  {
    groups - (set g | g in gone && g in ids :: ids[g])
  }

  /** Deleting one more id takes away the group it still names, if any. */
  lemma WithoutGroupsStep(groups: map<string, set<string>>, ids: map<string, string>, gone: set<string>, id: string)
    ensures WithoutGroups(groups, ids, {}) == groups
    ensures (if id in ids - gone then WithoutGroups(groups, ids, gone) - {(ids - gone)[id]}
             else WithoutGroups(groups, ids, gone))
            == WithoutGroups(groups, ids, gone + {id})
    ensures (ids - gone) - {id} == ids - (gone + {id})
  {
  }

  /** Some role id of the user is mapped to the creator role. */
  predicate IsCreator(config: Config, roleids: seq<string>)
  {
    exists i :: 0 <= i < |roleids| && roleids[i] in Explode(config.creatorrolemap, ',')
  }

  /** Some role id of the user is assignable in the course and not mapped to the creator role. */
  predicate IsViewer(config: Config, roleids: seq<string>, assignable: seq<string>)
  {
    exists i :: 0 <= i < |roleids| && roleids[i] in assignable && roleids[i] !in Explode(config.creatorrolemap, ',')
  }

  /** A group's members after a user is removed and, when kept, added back. */
  function Resynced(members: set<string>, id: string, keep: bool): (m: set<string>)
    ensures id in m <==> keep
    ensures m - {id} == members - {id}
  {
    (members - {id}) + (if keep then {id} else {})
  }

  /** Re-syncing does not depend on whether the user was a member before, so doing it twice is doing it once. */
  lemma ResyncedIgnoresPrior(members: set<string>, id: string, keep: bool)
    ensures Resynced(members + {id}, id, keep) == Resynced(members, id, keep)
    ensures Resynced(members - {id}, id, keep) == Resynced(members, id, keep)
    ensures Resynced(Resynced(members, id, keep), id, keep) == Resynced(members, id, keep)
  {
  }

  /** The request that adds (or removes) one account to (or from) the course's group for a role. */
  function MemberRequest(c: SoapClient, name: string, courseid: string, role: int, id: string): SoapRequest
  {
    c.RequestFor(name, MembersParams(c.apiinstance, courseid, role, List([Str(id)])), "")
  }

  /**
   * `sync_user_enrollment`: make sure the user has an account, take it out
   * of both course groups, then put it back in the creators group when one
   * of the user's roles is mapped to creators, and in the viewers group
   * when one is an assignable role not mapped to creators. A failed account
   * call touches no group; a failed creators add stops before the viewers
   * add. Other groups and other members are never touched.
   */
  method SyncUserEnrollment(c: SoapClient, svc: Panopto, config: Config, u: User, courseid: string,
                            roleids: seq<string>, assignable: seq<string>)
    modifies c, svc
    ensures svc.groupIds == old(svc.groupIds)
    ensures var key := InstanceUsername(c.apiinstance, u.username);
            && (svc.faultFor(c.RequestFor("CreateUser", CreateUserParams(c.apiinstance, u), "")).Some? ==>
                  svc.accounts == old(svc.accounts))
            && (svc.faultFor(c.RequestFor("CreateUser", CreateUserParams(c.apiinstance, u), "")).None? ==>
                  svc.accounts == WithAccounts(old(svc.accounts), [key]))
    ensures svc.faultFor(c.RequestFor("CreateUser", CreateUserParams(c.apiinstance, u), "")).Some? ==>
              svc.groups == old(svc.groups)
    ensures var cext := InstanceGroupExternalId(courseid, FOLDER_ROLE_CREATOR);
            var vext := InstanceGroupExternalId(courseid, FOLDER_ROLE_VIEWER);
            forall e :: e != cext && e != vext ==> Members(svc.groups, e) == Members(old(svc.groups), e)
    ensures var id := AccountFor(old(svc.accounts), InstanceUsername(c.apiinstance, u.username));
            var cext := InstanceGroupExternalId(courseid, FOLDER_ROLE_CREATOR);
            var vext := InstanceGroupExternalId(courseid, FOLDER_ROLE_VIEWER);
            && Members(svc.groups, cext) - {id} == Members(old(svc.groups), cext) - {id}
            && Members(svc.groups, vext) - {id} == Members(old(svc.groups), vext) - {id}
    ensures var id := AccountFor(old(svc.accounts), InstanceUsername(c.apiinstance, u.username));
            var cext := InstanceGroupExternalId(courseid, FOLDER_ROLE_CREATOR);
            var vext := InstanceGroupExternalId(courseid, FOLDER_ROLE_VIEWER);
            svc.faultFor(c.RequestFor("CreateUser", CreateUserParams(c.apiinstance, u), "")).None? ==>
              && ((svc.faultFor(MemberRequest(c, "RemoveMembersFromExternalGroup", courseid, FOLDER_ROLE_CREATOR, id)).None?
                   && id in Members(svc.groups, cext)) ==> IsCreator(config, roleids))
              && ((svc.faultFor(MemberRequest(c, "RemoveMembersFromExternalGroup", courseid, FOLDER_ROLE_VIEWER, id)).None?
                   && id in Members(svc.groups, vext)) ==> IsViewer(config, roleids, assignable))
    ensures var id := AccountFor(old(svc.accounts), InstanceUsername(c.apiinstance, u.username));
            var cext := InstanceGroupExternalId(courseid, FOLDER_ROLE_CREATOR);
            var vext := InstanceGroupExternalId(courseid, FOLDER_ROLE_VIEWER);
            Answers(svc) ==>
              && Members(svc.groups, cext) == Resynced(Members(old(svc.groups), cext), id, IsCreator(config, roleids))
              && Members(svc.groups, vext) == Resynced(Members(old(svc.groups), vext), id, IsViewer(config, roleids, assignable))
    ensures var id := AccountFor(old(svc.accounts), InstanceUsername(c.apiinstance, u.username));
            var cext := InstanceGroupExternalId(courseid, FOLDER_ROLE_CREATOR);
            var vext := InstanceGroupExternalId(courseid, FOLDER_ROLE_VIEWER);
            var cleared := svc.faultFor(MemberRequest(c, "RemoveMembersFromExternalGroup", courseid, FOLDER_ROLE_CREATOR, id)).None?;
            var vcleared := svc.faultFor(MemberRequest(c, "RemoveMembersFromExternalGroup", courseid, FOLDER_ROLE_VIEWER, id)).None?;
            svc.faultFor(c.RequestFor("CreateUser", CreateUserParams(c.apiinstance, u), "")).None?
            && IsCreator(config, roleids)
            && svc.faultFor(MemberRequest(c, "AddMembersToExternalGroup", courseid, FOLDER_ROLE_CREATOR, id)).Some? ==>
              && !c.Success()
              && Members(svc.groups, cext) == Members(old(svc.groups), cext) - (if cleared then {id} else {})
              && Members(svc.groups, vext) == Members(old(svc.groups), vext) - (if vcleared then {id} else {})
  {
    var panoptouserid := CreateUser(c, svc, u);
    if !c.Success() || IsNullish(panoptouserid) {
      return;
    }
    var id := panoptouserid.s;
    assert id == AccountFor(old(svc.accounts), InstanceUsername(c.apiinstance, u.username));
    ResyncUser(c, svc, config, courseid, id, roleids, assignable);
  }

  /** The group half of `sync_user_enrollment`, for the user's account id: remove it from both groups, then add it back. */
  method ResyncUser(c: SoapClient, svc: Panopto, config: Config, courseid: string, id: string,
                    roleids: seq<string>, assignable: seq<string>)
    modifies c, svc
    ensures svc.accounts == old(svc.accounts) && svc.groupIds == old(svc.groupIds)
    ensures var cext := InstanceGroupExternalId(courseid, FOLDER_ROLE_CREATOR);
            var vext := InstanceGroupExternalId(courseid, FOLDER_ROLE_VIEWER);
            && (forall e :: e != cext && e != vext ==> Members(svc.groups, e) == Members(old(svc.groups), e))
            && Members(svc.groups, cext) - {id} == Members(old(svc.groups), cext) - {id}
            && Members(svc.groups, vext) - {id} == Members(old(svc.groups), vext) - {id}
    ensures var cext := InstanceGroupExternalId(courseid, FOLDER_ROLE_CREATOR);
            var vext := InstanceGroupExternalId(courseid, FOLDER_ROLE_VIEWER);
            && ((svc.faultFor(MemberRequest(c, "RemoveMembersFromExternalGroup", courseid, FOLDER_ROLE_CREATOR, id)).None?
                 && id in Members(svc.groups, cext)) ==> IsCreator(config, roleids))
            && ((svc.faultFor(MemberRequest(c, "RemoveMembersFromExternalGroup", courseid, FOLDER_ROLE_VIEWER, id)).None?
                 && id in Members(svc.groups, vext)) ==> IsViewer(config, roleids, assignable))
    ensures var cext := InstanceGroupExternalId(courseid, FOLDER_ROLE_CREATOR);
            var vext := InstanceGroupExternalId(courseid, FOLDER_ROLE_VIEWER);
            Answers(svc) ==>
              && Members(svc.groups, cext) == Resynced(Members(old(svc.groups), cext), id, IsCreator(config, roleids))
              && Members(svc.groups, vext) == Resynced(Members(old(svc.groups), vext), id, IsViewer(config, roleids, assignable))
    ensures var cext := InstanceGroupExternalId(courseid, FOLDER_ROLE_CREATOR);
            var vext := InstanceGroupExternalId(courseid, FOLDER_ROLE_VIEWER);
            var cleared := svc.faultFor(MemberRequest(c, "RemoveMembersFromExternalGroup", courseid, FOLDER_ROLE_CREATOR, id)).None?;
            var vcleared := svc.faultFor(MemberRequest(c, "RemoveMembersFromExternalGroup", courseid, FOLDER_ROLE_VIEWER, id)).None?;
            IsCreator(config, roleids)
            && svc.faultFor(MemberRequest(c, "AddMembersToExternalGroup", courseid, FOLDER_ROLE_CREATOR, id)).Some? ==>
              && !c.Success()
              && Members(svc.groups, cext) == Members(old(svc.groups), cext) - (if cleared then {id} else {})
              && Members(svc.groups, vext) == Members(old(svc.groups), vext) - (if vcleared then {id} else {})
  {
    CourseGroupIdsDistinct(courseid);
    var cext := InstanceGroupExternalId(courseid, FOLDER_ROLE_CREATOR);
    var vext := InstanceGroupExternalId(courseid, FOLDER_ROLE_VIEWER);
    ghost var g0 := svc.groups;
    ClearUser(c, svc, courseid, id);
    ghost var g1 := svc.groups;
    AddUserBack(c, svc, config, courseid, id, roleids, assignable);
    ResyncedSteps(Members(g0, cext), Members(g1, cext), Members(svc.groups, cext), id, IsCreator(config, roleids));
    ResyncedSteps(Members(g0, vext), Members(g1, vext), Members(svc.groups, vext), id, IsViewer(config, roleids, assignable));
  }

  /** A membership taken through the removal of one account and then, when kept, its re-adding. */
  lemma ResyncedSteps(m0: set<string>, m1: set<string>, m2: set<string>, id: string, keep: bool)
    requires m1 - {id} == m0 - {id} && m1 <= m0
    requires m1 <= m2 && m2 <= m1 + (if keep then {id} else {})
    ensures m2 - {id} == m0 - {id}
    ensures id !in m1 && id in m2 ==> keep
    ensures id !in m1 && (keep ==> id in m2) ==> m2 == Resynced(m0, id, keep)
  {
  }

  /** The first half of `sync_user_enrollment`: take the account out of the creators group, then the viewers group. */
  method ClearUser(c: SoapClient, svc: Panopto, courseid: string, panoptouserid: string)
    modifies c, svc
    ensures svc.accounts == old(svc.accounts) && svc.groupIds == old(svc.groupIds)
    ensures var cext := InstanceGroupExternalId(courseid, FOLDER_ROLE_CREATOR);
            var vext := InstanceGroupExternalId(courseid, FOLDER_ROLE_VIEWER);
            && (forall e :: e != cext && e != vext ==> Members(svc.groups, e) == Members(old(svc.groups), e))
            && Members(svc.groups, cext) - {panoptouserid} == Members(old(svc.groups), cext) - {panoptouserid}
            && Members(svc.groups, vext) - {panoptouserid} == Members(old(svc.groups), vext) - {panoptouserid}
            && Members(svc.groups, cext) <= Members(old(svc.groups), cext)
            && Members(svc.groups, vext) <= Members(old(svc.groups), vext)
    ensures svc.faultFor(MemberRequest(c, "RemoveMembersFromExternalGroup", courseid, FOLDER_ROLE_CREATOR, panoptouserid)).None? ==>
              panoptouserid !in Members(svc.groups, InstanceGroupExternalId(courseid, FOLDER_ROLE_CREATOR))
    ensures svc.faultFor(MemberRequest(c, "RemoveMembersFromExternalGroup", courseid, FOLDER_ROLE_VIEWER, panoptouserid)).None? ==>
              panoptouserid !in Members(svc.groups, InstanceGroupExternalId(courseid, FOLDER_ROLE_VIEWER))
    ensures svc.faultFor(MemberRequest(c, "RemoveMembersFromExternalGroup", courseid, FOLDER_ROLE_CREATOR, panoptouserid)).Some? ==>
              var cext := InstanceGroupExternalId(courseid, FOLDER_ROLE_CREATOR);
              Members(svc.groups, cext) == Members(old(svc.groups), cext)
    ensures svc.faultFor(MemberRequest(c, "RemoveMembersFromExternalGroup", courseid, FOLDER_ROLE_VIEWER, panoptouserid)).Some? ==>
              var vext := InstanceGroupExternalId(courseid, FOLDER_ROLE_VIEWER);
              Members(svc.groups, vext) == Members(old(svc.groups), vext)
  {
    CourseGroupIdsDistinct(courseid);
    var members := List([Str(panoptouserid)]);
    assert IdSet(members) == {panoptouserid};
    RemoveUsersFromGroup(c, svc, courseid, members, FOLDER_ROLE_CREATOR);
    RemoveUsersFromGroup(c, svc, courseid, members, FOLDER_ROLE_VIEWER);
  }

  /**
   * The second half of `sync_user_enrollment`: nothing for a user without
   * roles; otherwise add the account to the creators group when a role is
   * mapped to creators, stopping if that fails, then to the viewers group
   * when a role is an assignable one not mapped to creators.
   */
  method AddUserBack(c: SoapClient, svc: Panopto, config: Config, courseid: string, panoptouserid: string,
                     roleids: seq<string>, assignable: seq<string>)
    modifies c, svc
    ensures svc.accounts == old(svc.accounts) && svc.groupIds == old(svc.groupIds)
    ensures var cext := InstanceGroupExternalId(courseid, FOLDER_ROLE_CREATOR);
            var vext := InstanceGroupExternalId(courseid, FOLDER_ROLE_VIEWER);
            && (forall e :: e != cext && e != vext ==> Members(svc.groups, e) == Members(old(svc.groups), e))
            && Members(old(svc.groups), cext) <= Members(svc.groups, cext)
            && Members(svc.groups, cext) <= Members(old(svc.groups), cext) + (if IsCreator(config, roleids) then {panoptouserid} else {})
            && Members(old(svc.groups), vext) <= Members(svc.groups, vext)
            && Members(svc.groups, vext) <= Members(old(svc.groups), vext)
                                            + (if IsViewer(config, roleids, assignable) then {panoptouserid} else {})
    ensures var cext := InstanceGroupExternalId(courseid, FOLDER_ROLE_CREATOR);
            var vext := InstanceGroupExternalId(courseid, FOLDER_ROLE_VIEWER);
            Answers(svc) ==>
              && (IsCreator(config, roleids) ==> panoptouserid in Members(svc.groups, cext))
              && (IsViewer(config, roleids, assignable) ==> panoptouserid in Members(svc.groups, vext))
    ensures IsCreator(config, roleids)
            && svc.faultFor(MemberRequest(c, "AddMembersToExternalGroup", courseid, FOLDER_ROLE_CREATOR, panoptouserid)).Some? ==>
              svc.groups == old(svc.groups) && !c.Success()
    ensures var cadd := MemberRequest(c, "AddMembersToExternalGroup", courseid, FOLDER_ROLE_CREATOR, panoptouserid);
            var vadd := MemberRequest(c, "AddMembersToExternalGroup", courseid, FOLDER_ROLE_VIEWER, panoptouserid);
            && (IsCreator(config, roleids) && svc.faultFor(cadd).None? ==>
                  panoptouserid in Members(svc.groups, InstanceGroupExternalId(courseid, FOLDER_ROLE_CREATOR)))
            && (IsViewer(config, roleids, assignable) && svc.faultFor(vadd).None?
                && (IsCreator(config, roleids) ==> svc.faultFor(cadd).None?) ==>
                  panoptouserid in Members(svc.groups, InstanceGroupExternalId(courseid, FOLDER_ROLE_VIEWER)))
  {
    CourseGroupIdsDistinct(courseid);
    var members := List([Str(panoptouserid)]);
    assert IdSet(members) == {panoptouserid};
    if |roleids| == 0 {
      return;
    }
    var creatorroleids := Explode(config.creatorrolemap, ',');
    var creator := Intersects(roleids, creatorroleids);
    if |creatorroleids| > 0 && creator {
      AddUsersToGroup(c, svc, courseid, members, FOLDER_ROLE_CREATOR);
      if !c.Success() {
        return;
      }
    }
    var viewerroleids := Without(assignable, creatorroleids);
    var viewer := Intersects(roleids, viewerroleids);
    if |viewerroleids| > 0 && viewer {
      AddUsersToGroup(c, svc, courseid, members, FOLDER_ROLE_VIEWER);
      if !c.Success() {
        return;
      }
    }
  }

  /** `array_intersect($a, $b)` is not empty. */
  method Intersects(a: seq<string>, b: seq<string>) returns (found: bool)
    ensures found <==> exists i :: 0 <= i < |a| && a[i] in b
  {
    found := false;
    var n := 0;
    while n < |a|
      invariant 0 <= n <= |a|
      invariant found <==> exists i :: 0 <= i < n && a[i] in b
    {
      if a[n] in b {
        found := true;
      }
      n := n + 1;
    }
  }

  /** `array_diff($a, $b)`, as a set of values: the elements of a not in b. */
  method Without(a: seq<string>, b: seq<string>) returns (d: seq<string>)
    ensures forall x :: x in d <==> x in a && x !in b
  {
    d := [];
    var n := 0;
    while n < |a|
      invariant 0 <= n <= |a|
      invariant forall x :: x in d <==> x in a[..n] && x !in b
    {
      assert a[..n + 1] == a[..n] + [a[n]];
      if a[n] !in b {
        d := d + [a[n]];
      }
      n := n + 1;
    }
    assert a[..n] == a;
  }

  /** The users filed by username, `$a[$u->username] = $u` in turn, leaving out the usernames that are keys of skip. */
  function ByUsername(acc: Assoc<User>, users: seq<User>, skip: Assoc<User>): Assoc<User>
    decreases |users|
  {
    if |users| == 0 then acc
    else
      var prev := ByUsername(acc, users[..|users| - 1], skip);
      var u := users[|users| - 1];
      if HasKey(skip, u.username) then prev else Put(prev, u.username, u)
  }

  /** The distinct users of a role listing, leaving out the usernames that are keys of skip. */
  function DistinctUsers(users: seq<User>, skip: Assoc<User>): Assoc<User>
  {
    ByUsername([], users, skip)
  }

  /** Every user is filed under its own username. */
  predicate KeyedByUsername(a: Assoc<User>)
  {
    forall i :: 0 <= i < |a| ==> a[i].0 == a[i].1.username
  }

  /**
   * Filing users by username leaves each username once, under it a user of
   * the listing with that username, and every username of the listing that
   * is not skipped; nothing skipped is filed.
   */
  lemma {:induction false} ByUsernameFiles(acc: Assoc<User>, users: seq<User>, skip: Assoc<User>)
    requires DistinctKeys(acc) && KeyedByUsername(acc)
    ensures var a := ByUsername(acc, users, skip);
            && DistinctKeys(a) && KeyedByUsername(a)
            && (forall i :: 0 <= i < |a| ==> a[i].1 in users || a[i] in acc)
            && (forall u :: u in users && !HasKey(skip, u.username) ==> HasKey(a, u.username))
            && (forall n :: HasKey(a, n) ==> HasKey(acc, n) || !HasKey(skip, n))
    decreases |users|
  {
    if |users| > 0 {
      var pre := users[..|users| - 1];
      var u := users[|users| - 1];
      assert users == pre + [u];
      ByUsernameFiles(acc, pre, skip);
      var prev := ByUsername(acc, pre, skip);
      if !HasKey(skip, u.username) {
        var a := Put(prev, u.username, u);
        forall n
          ensures HasKey(a, n) <==> HasKey(prev, n) || n == u.username
        {
          PutGet(prev, u.username, u, n);
        }
        assert forall i :: 0 <= i < |a| ==> (i < |prev| && a[i] == prev[i]) || a[i] == (u.username, u);
      }
    }
  }

  /** The distinct users have distinct usernames, each from the listing, and cover every username of it not skipped. */
  lemma DistinctUsersFaithful(users: seq<User>, skip: Assoc<User>)
    ensures var a := DistinctUsers(users, skip);
            && DistinctKeys(a) && KeyedByUsername(a)
            && (forall i :: 0 <= i < |a| ==> a[i].1 in users && !HasKey(skip, a[i].0))
            && (forall u :: u in users && !HasKey(skip, u.username) ==> HasKey(a, u.username))
  {
    ByUsernameFiles([], users, skip);
    var a := DistinctUsers(users, skip);
    forall i | 0 <= i < |a|
      ensures !HasKey(skip, a[i].0)
    {
      assert HasKey(a, a[i].0);
    }
  }

  /** The loop that makes a role listing distinct by username. */
  method Distinct(users: seq<User>, skip: Assoc<User>) returns (a: Assoc<User>)
    ensures a == DistinctUsers(users, skip)
  {
    a := [];
    var n := 0;
    while n < |users|
      invariant 0 <= n <= |users|
      invariant a == ByUsername([], users[..n], skip)
    {
      assert users[..n + 1][..n] == users[..n];
      if !HasKey(skip, users[n].username) {
        a := Put(a, users[n].username, users[n]);
      }
      n := n + 1;
    }
    assert users[..n] == users;
  }

  /** The loop that collects the `UserId` of each user record. */
  method UserIds(created: Value) returns (ids: seq<Value>)
    ensures |ids| == |Items(created)|
    ensures forall i :: 0 <= i < |ids| ==> ids[i] == Prop(Items(created)[i], "UserId")
  {
    var records := Items(created);
    ids := [];
    var n := 0;
    while n < |records|
      invariant 0 <= n <= |records|
      invariant |ids| == n
      invariant forall i :: 0 <= i < n ==> ids[i] == Prop(records[i], "UserId")
    {
      ids := ids + [Prop(records[n], "UserId")];
      n := n + 1;
    }
  }

  /** The account ids of the given user keys. */
  function AccountIds(accounts: map<string, Guid>, keys: seq<string>): (ids: set<string>)
    ensures forall k :: k in keys && k in accounts ==> accounts[k] in ids
  {
    set k | k in keys && k in accounts :: accounts[k]
  }

  /** A list holding the account id of each key, as strings, names exactly those accounts. */
  lemma IdsOfAccounts(ids: seq<Value>, accounts: map<string, Guid>, keys: seq<string>)
    requires |ids| == |keys|
    requires forall i :: 0 <= i < |keys| ==> keys[i] in accounts && ids[i] == Str(accounts[keys[i]])
    ensures IdSet(List(ids)) == AccountIds(accounts, keys)
  {
    forall x | x in IdSet(List(ids))
      ensures x in AccountIds(accounts, keys)
    {
      var i :| 0 <= i < |ids| && ids[i] == Str(x);
      assert keys[i] in keys;
    }
    forall x | x in AccountIds(accounts, keys)
      ensures x in IdSet(List(ids))
    {
      var k :| k in keys && k in accounts && accounts[k] == x;
      var i :| 0 <= i < |keys| && keys[i] == k;
      assert ids[i] in Items(List(ids));
    }
  }

  /** Account ids of keys that are all present are kept by a map that keeps every present account. */
  lemma AccountIdsKept(before: map<string, Guid>, after: map<string, Guid>, keys: seq<string>)
    requires forall k :: k in keys ==> k in before
    requires forall k :: k in before ==> k in after && after[k] == before[k]
    ensures AccountIds(after, keys) == AccountIds(before, keys)
  {
  }

  /**
   * One clearing step of `sync_course_enrollments`: list the members of a
   * group by its id and remove them from the course's group for the default
   * role, the viewers group; nothing for an empty id or a group without
   * members.
   */
  method ClearGroup(c: SoapClient, svc: Panopto, courseid: string, groupid: string)
    modifies c, svc
    ensures svc.accounts == old(svc.accounts) && svc.groupIds == old(svc.groupIds)
    ensures var vext := InstanceGroupExternalId(courseid, FOLDER_ROLE_VIEWER);
            && (forall e :: e != vext ==> Members(svc.groups, e) == Members(old(svc.groups), e))
            && Members(svc.groups, vext) <= Members(old(svc.groups), vext)
    ensures var vext := InstanceGroupExternalId(courseid, FOLDER_ROLE_VIEWER);
            Answers(svc) && !EmptyString(groupid) && groupid in old(svc.groupIds) ==>
              Members(svc.groups, vext) == Members(old(svc.groups), vext) - Members(old(svc.groups), old(svc.groupIds)[groupid])
  {
    if !EmptyString(groupid) {
      var externaluserids := GetUsersInGroup(c, svc, groupid);
      if !IsNullish(externaluserids) {
        RemoveUsersFromGroup(c, svc, courseid, externaluserids);
      }
    }
  }

  /** The ids `sync_course_enrollments` collects from the created records: each key's account id, in order. */
  function AccountIdList(accounts: map<string, Guid>, keys: seq<string>): (ids: seq<Value>)
    ensures |ids| == |keys|
    ensures forall i :: 0 <= i < |keys| && keys[i] in accounts ==> ids[i] == Str(accounts[keys[i]])
  {
    seq(|keys|, i requires 0 <= i < |keys| => if keys[i] in accounts then Str(accounts[keys[i]]) else Null)
  }

  /** The add request of a filling step: the accounts of the keys, to the course's group for a role. */
  function AddAccountsRequest(c: SoapClient, courseid: string, role: int,
                              accounts: map<string, Guid>, keys: seq<string>): SoapRequest
  {
    c.RequestFor("AddMembersToExternalGroup", MembersParams(c.apiinstance, courseid, role, List(AccountIdList(accounts, keys))), "")
  }

  /** A filling step succeeds: there are no users, or neither its account call nor its add call faults. */
  ghost predicate Filled(c: SoapClient, svc: Panopto, courseid: string, users: seq<User>, role: int)
    reads svc
  {
    || |users| == 0
    || (&& svc.faultFor(CreateUsersRequest(c, users)).None?
        && svc.faultFor(AddAccountsRequest(c, courseid, role, svc.accounts, UserKeys(c.apiinstance, users))).None?)
  }

  /** A service that never faults an account-creating or member-adding request; clearing calls may still fault. */
  ghost predicate FillAnswers(svc: Panopto)
  {
    forall r: SoapRequest :: r.methodName == "CreateUsers" || r.methodName == "AddMembersToExternalGroup" ==> svc.faultFor(r).None?
  }

  /** The id list of keys that all have accounts is kept by a map that keeps every account. */
  lemma AccountIdListKept(before: map<string, Guid>, after: map<string, Guid>, keys: seq<string>)
    requires forall k :: k in keys ==> k in before
    requires forall k :: k in before ==> k in after && after[k] == before[k]
    ensures AccountIdList(after, keys) == AccountIdList(before, keys)
  {
    assert forall i :: 0 <= i < |keys| ==> keys[i] in keys;
  }

  /**
   * One filling step of `sync_course_enrollments`: make sure the users have
   * accounts and add those accounts to the course's group for a role.
   * Nothing for no users; false when the account call fails or gives
   * nothing back, or the add fails.
   */
  method PutBack(c: SoapClient, svc: Panopto, courseid: string, users: seq<User>, role: int) returns (ok: bool)
    modifies c, svc
    ensures svc.groupIds == old(svc.groupIds)
    ensures forall k :: k in old(svc.accounts) ==> k in svc.accounts && svc.accounts[k] == old(svc.accounts)[k]
    ensures var ext := InstanceGroupExternalId(courseid, role);
            && (forall e :: e != ext ==> Members(svc.groups, e) == Members(old(svc.groups), e))
            && Members(old(svc.groups), ext) <= Members(svc.groups, ext)
    ensures |users| == 0 ==> ok && svc.groups == old(svc.groups) && svc.accounts == old(svc.accounts)
    ensures ok ==> forall k :: k in UserKeys(c.apiinstance, users) ==> k in svc.accounts
    ensures ok ==> svc.accounts == WithAccounts(old(svc.accounts), UserKeys(c.apiinstance, users))
    ensures ok ==> Members(svc.groups, InstanceGroupExternalId(courseid, role))
                   == Members(old(svc.groups), InstanceGroupExternalId(courseid, role))
                      + AccountIds(svc.accounts, UserKeys(c.apiinstance, users))
    ensures Answers(svc) ==> ok
    ensures ok <==> Filled(c, svc, courseid, users, role)
    ensures !ok ==> c.result.Failed? && svc.groups == old(svc.groups)
    ensures FillAnswers(svc) ==> ok
    ensures |users| > 0 && svc.faultFor(CreateUsersRequest(c, users)).Some? ==> svc.accounts == old(svc.accounts)
    ensures |users| > 0 && svc.faultFor(CreateUsersRequest(c, users)).None? ==>
              svc.accounts == WithAccounts(old(svc.accounts), UserKeys(c.apiinstance, users))
  {
    if |users| == 0 {
      return true;
    }
    var panoptousers := CreateUsers(c, svc, users);
    NullishIsEmpty(panoptousers);
    if !c.Success() || IsNullish(panoptousers) {
      return false;
    }
    var panoptouserids := UserIds(panoptousers);
    ghost var keys := UserKeys(c.apiinstance, users);
    assert panoptouserids == AccountIdList(svc.accounts, keys);
    IdsOfAccounts(panoptouserids, svc.accounts, keys);
    AddUsersToGroup(c, svc, courseid, List(panoptouserids), role);
    if !c.Success() {
      return false;
    }
    return true;
  }

  /**
   * `sync_course_enrollments`: clear the groups, then put back the users
   * who hold a creator role (distinct by username) into the creators group
   * and the other users who hold a viewer role into the viewers group;
   * false at the first failed account call or add, true otherwise. Both
   * clearing steps address the viewers group, so nobody leaves the
   * creators group.
   */
  method SyncCourseEnrollments(c: SoapClient, svc: Panopto, courseid: string,
                               creatorsgroupid: string, viewersgroupid: string,
                               creatorRoleUsers: seq<User>, viewerRoleUsers: seq<User>)
    returns (ok: bool)
    modifies c, svc
    ensures svc.groupIds == old(svc.groupIds)
    ensures forall k :: k in old(svc.accounts) ==> k in svc.accounts && svc.accounts[k] == old(svc.accounts)[k]
    ensures var cext := InstanceGroupExternalId(courseid, FOLDER_ROLE_CREATOR);
            var vext := InstanceGroupExternalId(courseid, FOLDER_ROLE_VIEWER);
            && (forall e :: e != cext && e != vext ==> Members(svc.groups, e) == Members(old(svc.groups), e))
            && Members(old(svc.groups), cext) <= Members(svc.groups, cext)
    ensures var creators := UserKeys(c.apiinstance, Values(DistinctUsers(creatorRoleUsers, [])));
            var viewers := UserKeys(c.apiinstance, Values(DistinctUsers(viewerRoleUsers, DistinctUsers(creatorRoleUsers, []))));
            ok ==>
              && AccountIds(svc.accounts, creators) <= Members(svc.groups, InstanceGroupExternalId(courseid, FOLDER_ROLE_CREATOR))
              && AccountIds(svc.accounts, viewers) <= Members(svc.groups, InstanceGroupExternalId(courseid, FOLDER_ROLE_VIEWER))
    ensures var creators := UserKeys(c.apiinstance, Values(DistinctUsers(creatorRoleUsers, [])));
            var cext := InstanceGroupExternalId(courseid, FOLDER_ROLE_CREATOR);
            Answers(svc) ==> ok && Members(svc.groups, cext) == Members(old(svc.groups), cext) + AccountIds(svc.accounts, creators)
    ensures var viewers := UserKeys(c.apiinstance, Values(DistinctUsers(viewerRoleUsers, DistinctUsers(creatorRoleUsers, []))));
            var vext := InstanceGroupExternalId(courseid, FOLDER_ROLE_VIEWER);
            Answers(svc) && !EmptyString(viewersgroupid) && viewersgroupid in old(svc.groupIds)
            && old(svc.groupIds)[viewersgroupid] == vext ==>
              Members(svc.groups, vext) == AccountIds(svc.accounts, viewers)
    ensures var creatorusers := Values(DistinctUsers(creatorRoleUsers, []));
            var viewerusers := Values(DistinctUsers(viewerRoleUsers, DistinctUsers(creatorRoleUsers, [])));
            ok <==> Filled(c, svc, courseid, creatorusers, FOLDER_ROLE_CREATOR)
                    && Filled(c, svc, courseid, viewerusers, FOLDER_ROLE_VIEWER)
    ensures var creators := UserKeys(c.apiinstance, Values(DistinctUsers(creatorRoleUsers, [])));
            var viewers := UserKeys(c.apiinstance, Values(DistinctUsers(viewerRoleUsers, DistinctUsers(creatorRoleUsers, []))));
            ok ==> svc.accounts == WithAccounts(old(svc.accounts), creators + viewers)
    ensures !ok ==> c.result.Failed?
    ensures FillAnswers(svc) ==> ok
    ensures var creatorusers := Values(DistinctUsers(creatorRoleUsers, []));
            var cext := InstanceGroupExternalId(courseid, FOLDER_ROLE_CREATOR);
            var vext := InstanceGroupExternalId(courseid, FOLDER_ROLE_VIEWER);
            !Filled(c, svc, courseid, creatorusers, FOLDER_ROLE_CREATOR) ==>
              && Members(svc.groups, cext) == Members(old(svc.groups), cext)
              && Members(svc.groups, vext) <= Members(old(svc.groups), vext)
              && (forall k :: k in svc.accounts ==> k in old(svc.accounts) || k in UserKeys(c.apiinstance, creatorusers))
  {
    ClearGroups(c, svc, courseid, creatorsgroupid, viewersgroupid);
    var creatorusers := Distinct(creatorRoleUsers, []);
    ok := FillGroups(c, svc, courseid, creatorusers, viewerRoleUsers);
  }

  /** The clearing half of `sync_course_enrollments`: both steps take members out of the viewers group only. */
  method ClearGroups(c: SoapClient, svc: Panopto, courseid: string, creatorsgroupid: string, viewersgroupid: string)
    modifies c, svc
    ensures svc.accounts == old(svc.accounts) && svc.groupIds == old(svc.groupIds)
    ensures var vext := InstanceGroupExternalId(courseid, FOLDER_ROLE_VIEWER);
            && (forall e :: e != vext ==> Members(svc.groups, e) == Members(old(svc.groups), e))
            && Members(svc.groups, vext) <= Members(old(svc.groups), vext)
    ensures var vext := InstanceGroupExternalId(courseid, FOLDER_ROLE_VIEWER);
            Answers(svc) && !EmptyString(viewersgroupid) && viewersgroupid in old(svc.groupIds)
            && old(svc.groupIds)[viewersgroupid] == vext ==>
              Members(svc.groups, vext) == {}
  {
    ClearGroup(c, svc, courseid, creatorsgroupid);
    ClearGroup(c, svc, courseid, viewersgroupid);
  }

  /**
   * The filling half of `sync_course_enrollments`: the creators step, then,
   * unless it failed, the viewers step for the viewer-role users who are not
   * creators.
   */
  method FillGroups(c: SoapClient, svc: Panopto, courseid: string, creatorusers: Assoc<User>, viewerRoleUsers: seq<User>)
    returns (ok: bool)
    modifies c, svc
    ensures svc.groupIds == old(svc.groupIds)
    ensures forall k :: k in old(svc.accounts) ==> k in svc.accounts && svc.accounts[k] == old(svc.accounts)[k]
    ensures var cext := InstanceGroupExternalId(courseid, FOLDER_ROLE_CREATOR);
            var vext := InstanceGroupExternalId(courseid, FOLDER_ROLE_VIEWER);
            && (forall e :: e != cext && e != vext ==> Members(svc.groups, e) == Members(old(svc.groups), e))
            && Members(old(svc.groups), cext) <= Members(svc.groups, cext)
            && Members(old(svc.groups), vext) <= Members(svc.groups, vext)
    ensures var creators := UserKeys(c.apiinstance, Values(creatorusers));
            var viewers := UserKeys(c.apiinstance, Values(DistinctUsers(viewerRoleUsers, creatorusers)));
            ok ==>
              && AccountIds(svc.accounts, creators) <= Members(svc.groups, InstanceGroupExternalId(courseid, FOLDER_ROLE_CREATOR))
              && AccountIds(svc.accounts, viewers) <= Members(svc.groups, InstanceGroupExternalId(courseid, FOLDER_ROLE_VIEWER))
    ensures var creators := UserKeys(c.apiinstance, Values(creatorusers));
            var viewers := UserKeys(c.apiinstance, Values(DistinctUsers(viewerRoleUsers, creatorusers)));
            var cext := InstanceGroupExternalId(courseid, FOLDER_ROLE_CREATOR);
            var vext := InstanceGroupExternalId(courseid, FOLDER_ROLE_VIEWER);
            Answers(svc) ==>
              && ok
              && Members(svc.groups, cext) == Members(old(svc.groups), cext) + AccountIds(svc.accounts, creators)
              && Members(svc.groups, vext) == Members(old(svc.groups), vext) + AccountIds(svc.accounts, viewers)
    ensures ok <==> Filled(c, svc, courseid, Values(creatorusers), FOLDER_ROLE_CREATOR)
                    && Filled(c, svc, courseid, Values(DistinctUsers(viewerRoleUsers, creatorusers)), FOLDER_ROLE_VIEWER)
    ensures !ok ==> c.result.Failed?
    ensures FillAnswers(svc) ==> ok
    ensures var creators := UserKeys(c.apiinstance, Values(creatorusers));
            var viewers := UserKeys(c.apiinstance, Values(DistinctUsers(viewerRoleUsers, creatorusers)));
            ok ==> svc.accounts == WithAccounts(old(svc.accounts), creators + viewers)
    ensures !Filled(c, svc, courseid, Values(creatorusers), FOLDER_ROLE_CREATOR) ==>
              && svc.groups == old(svc.groups)
              && (forall k :: k in svc.accounts ==> k in old(svc.accounts) || k in UserKeys(c.apiinstance, Values(creatorusers)))
  {
    CourseGroupIdsDistinct(courseid);
    ok := PutBack(c, svc, courseid, Values(creatorusers), FOLDER_ROLE_CREATOR);
    if !ok {
      return;
    }
    ghost var filled := svc.accounts;
    var viewerusers := Distinct(viewerRoleUsers, creatorusers);
    ok := PutBack(c, svc, courseid, Values(viewerusers), FOLDER_ROLE_VIEWER);
    AccountIdsKept(filled, svc.accounts, UserKeys(c.apiinstance, Values(creatorusers)));
    AccountIdListKept(filled, svc.accounts, UserKeys(c.apiinstance, Values(creatorusers)));
    WithAccountsAppend(old(svc.accounts), UserKeys(c.apiinstance, Values(creatorusers)),
                       UserKeys(c.apiinstance, Values(viewerusers)));
  }
}
