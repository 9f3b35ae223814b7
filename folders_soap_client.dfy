/**
 * The client of the session-management endpoint: folders and recordings.
 * Each operation checks its arguments, shapes the request, makes one call
 * through the base client and picks its answer out of the result. The
 * transport's answer to that call is a parameter of the operation.
 */
module FoldersSoapClient {
  import opened Php
  import opened BaseSoapClient

  /** The fault code `create_folder` uses for a duplicate folder name. */
  const DUPLICATE_FOLDER_NAME: string := "s:Client:Duplicate"

  /** The fault string the service sends when a folder name is already taken. */
  const NULL_SESSION_GROUP: string := "Value cannot be null.\r\nParameter name: sessionGroup"

  /** An id argument given either as one value or as an array of values. */
  datatype Ids = Scalar(id: string) | Array(ids: seq<string>)
  {
    /** `empty()` on the argument. */
    predicate IsEmpty()
    {
      if Scalar? then EmptyString(id) else ids == []
    }

    /** The argument as an array: a single value is wrapped in one. */
    function AsArray(): seq<string>
    {
      if Scalar? then [id] else ids
    }
  }

  /** A PHP array of strings. */
  function Strs(xs: seq<string>): (v: Value)
    ensures v.List? && |v.items| == |xs|
    ensures forall i :: 0 <= i < |xs| ==> v.items[i] == Str(xs[i])
  {
    List(seq(|xs|, i requires 0 <= i < |xs| => Str(xs[i])))
  }

  /** The folder external ids of a list of course ids, in the same order. */
  function FolderExternalIds(courseids: seq<string>): (ext: seq<string>)
  {
    seq(|courseids|, i requires 0 <= i < |courseids| => InstanceFolderExternalId(courseids[i]))
  }

  /** The list keeps length and order, and two entries agree exactly when their course ids do. */
  lemma FolderExternalIdsFaithful(courseids: seq<string>)
    ensures |FolderExternalIds(courseids)| == |courseids|
    ensures forall i :: 0 <= i < |courseids| ==>
              FolderExternalIds(courseids)[i] == "course-id:" + courseids[i]
    ensures forall i, j :: 0 <= i < |courseids| && 0 <= j < |courseids| ==>
              (FolderExternalIds(courseids)[i] == FolderExternalIds(courseids)[j] <==> courseids[i] == courseids[j])
  {
    var ext := FolderExternalIds(courseids);
    forall i, j | 0 <= i < |courseids| && 0 <= j < |courseids| && ext[i] == ext[j]
      ensures courseids[i] == courseids[j]
    {
      FolderExternalIdInjective(courseids[i], courseids[j]);
    }
  }

  /**
   * The loop of `get_folders_by_courseids` that maps each course id to its
   * folder external id.
   */
  method ExternalIds(courseids: seq<string>) returns (ext: seq<string>)
    ensures ext == FolderExternalIds(courseids)
  {
    ext := [];
    var k := 0;
    while k < |courseids|
      invariant 0 <= k <= |courseids|
      invariant ext == FolderExternalIds(courseids[..k])
    {
      ext := ext + [InstanceFolderExternalId(courseids[k])];
      k := k + 1;
    }
    assert courseids[..k] == courseids;
  }

  /** The list request a folder listing sends: first page of 100, sorted by name. */
  function ListFoldersParam(parentfolderid: Value): Value
  {
    Obj(map["Pagination" := Obj(map["MaxNumberResults" := Int(100), "PageNumber" := Int(0)]),
            "ParentFolderId" := parentfolderid, "PublicOnly" := Bool(false), "SortBy" := Str("Name"),
            "SortIncreasing" := Bool(true), "WildcardSearchNameOnly" := Bool(true)])
  }

  /** The list request a recording listing sends, filtered by folder id or not at all. */
  function ListRecordingsParam(folderid: Value): Value
  {
    Obj(map["FolderId" := folderid])
  }

  /** The parameters of `GetAllFoldersWithExternalContextByExternalId`. */
  function ByExternalIdParams(apiinstance: string, courseids: seq<string>): map<string, Value>
  {
    map["folderExternalIds" := Strs(FolderExternalIds(courseids)), "providerNames" := Strs([apiinstance])]
  }

  /** The parameters of `ProvisionExternalCourse`. */
  function ProvisionParams(name: string, courseid: string): map<string, Value>
  {
    map["name" := Str(name), "externalId" := Str(InstanceFolderExternalId(courseid))]
  }

  /** The parameters of `SetExternalCourseAccess`. */
  function CourseAccessParams(folderid: string, courseid: string): map<string, Value>
  {
    map["name" := Str(InstanceFolderExternalId(courseid)),
        "externalId" := Str(InstanceFolderExternalId(courseid)),
        "folderIds" := Strs([folderid])]
  }

  /** The parameters of a listing call. */
  function ListParams(request: Value): map<string, Value>
  {
    map["request" := request, "searchQuery" := Null]
  }

  /**
   * The last result `create_folder` leaves behind on failure: the
   * duplicate-name fault replaces a SoapFault whose fault string is exactly
   * the one the service sends for a taken name; anything else stays.
   */
  function RewriteDuplicate(lr: LastResult): (r: LastResult)
    ensures lr.Failed? && lr.failure.SoapFault? && lr.failure.faultstring == NULL_SESSION_GROUP ==>
              r == Failed(SoapFault(DUPLICATE_FOLDER_NAME, "Duplicate folder name."))
    ensures !(lr.Failed? && lr.failure.SoapFault? && lr.failure.faultstring == NULL_SESSION_GROUP) ==> r == lr
    ensures r.Failed? <==> lr.Failed?
  {
    if lr.Failed? && lr.failure.SoapFault? && lr.failure.faultstring == NULL_SESSION_GROUP
    then Failed(SoapFault(DUPLICATE_FOLDER_NAME, "Duplicate folder name."))
    else lr
  }

  /**
   * What a folder lookup (`get_folders`, `get_folders_by_courseids`) hands
   * back once the call is made: the folder list of a non-null answer.
   */
  function FolderContextReply(methodname: string, answer: Outcome): (folders: Value)
    ensures answer.Thrown? ==> folders == Null
    ensures folders != Null ==> Answered(methodname, answer) != Null
  {
    Prop(Answered(methodname, answer), "FolderWithExternalContext")
  }

  /**
   * What `get_folders_for_user` hands back once the call is made: the
   * folders of a non-null answer that reports a positive number of
   * results, null otherwise.
   */
  function CreatorFoldersReply(answer: Outcome): (folders: Value)
    ensures answer.Thrown? ==> folders == Null
    ensures folders != Null ==>
              var r := Answered("GetCreatorFoldersList", answer);
              r != Null && IsPositive(Prop(r, "TotalNumberResults")) && folders == Prop(Prop(r, "Results"), "Folder")
  {
    var r := Answered("GetCreatorFoldersList", answer);
    if r != Null && IsPositive(Prop(r, "TotalNumberResults")) then Prop(Prop(r, "Results"), "Folder") else Null
  }

  /**
   * What a recording listing hands back once the call is made: null when
   * the call gives back nothing, an empty list when the service reports no
   * results, the listed recordings otherwise.
   */
  function RecordingsReply(answer: Outcome): (recordings: Value)
    ensures answer.Thrown? ==> recordings == Null
    ensures Answered("GetSessionsList", answer) == Null ==> recordings == Null
    ensures Answered("GetSessionsList", answer) != Null
              && !IsPositive(Prop(Answered("GetSessionsList", answer), "TotalNumberResults")) ==>
              recordings == List([])
  {
    var r := Answered("GetSessionsList", answer);
    if r == Null then Null
    else if IsPositive(Prop(r, "TotalNumberResults")) then Prop(Prop(r, "Results"), "Session")
    else List([])
  }

  /** `get_folders`: the folders with the given ids. */
  method GetFolders(c: SoapClient, folderids: Ids, answer: Outcome) returns (folders: Value)
    modifies c
    ensures folderids.IsEmpty() ==> folders == Null && c.request == old(c.request) && c.result == old(c.result)
    ensures !folderids.IsEmpty() ==>
              var name := "GetFoldersWithExternalContextById";
              && c.request == Some(c.RequestFor(name, map["folderIds" := Strs(folderids.AsArray())], ""))
              && c.result == AfterCall(name, answer, old(c.result))
              && folders == FolderContextReply(name, answer)
    ensures answer.Thrown? ==> folders == Null
    ensures folders != Null ==> c.Success() && folders == Prop(c.result.value, "FolderWithExternalContext")
  {
    if folderids.IsEmpty() {
      return Null;
    }
    var params := map["folderIds" := Strs(folderids.AsArray())];
    var r := c.CallSoapMethod("GetFoldersWithExternalContextById", params, "", answer);
    NullishIsEmpty(r);
    if c.Success() && !IsNullish(r) {
      return Prop(r, "FolderWithExternalContext");
    }
    return Null;
  }

  /**
   * `create_folder`: provision the folder of a course. Empty arguments make
   * no call. On failure the result is null, and a fault that signals a
   * taken name is replaced by the duplicate-name fault; this also applies
   * when the answer leaves an earlier fault in place.
   */
  method CreateFolder(c: SoapClient, name: string, courseid: string, answer: Outcome) returns (folder: Value)
    modifies c
    ensures EmptyString(name) || EmptyString(courseid) ==>
              folder == Null && c.request == old(c.request) && c.result == old(c.result)
    ensures !EmptyString(name) && !EmptyString(courseid) ==>
              var after := AfterCall("ProvisionExternalCourse", answer, old(c.result));
              && c.request == Some(c.RequestFor("ProvisionExternalCourse", ProvisionParams(name, courseid), ""))
              && (folder != Null ==> c.result == after && c.Success()
                                     && folder == Answered("ProvisionExternalCourse", answer))
              && (folder == Null ==> c.result == RewriteDuplicate(after))
              && (Answered("ProvisionExternalCourse", answer) != Null ==> folder == Answered("ProvisionExternalCourse", answer))
    ensures answer.Thrown? ==> folder == Null
    ensures answer.Thrown? && !EmptyString(name) && !EmptyString(courseid) ==> !c.Success()
  {
    if EmptyString(name) || EmptyString(courseid) {
      return Null;
    }
    var params := map["name" := Str(name), "externalId" := Str(InstanceFolderExternalId(courseid))];
    var r := c.CallSoapMethod("ProvisionExternalCourse", params, "", answer);
    NullishIsEmpty(r);
    if !c.Success() || IsNullish(r) {
      if c.Result().Failed? && c.Result().failure.SoapFault? {
        if c.Result().failure.faultstring == NULL_SESSION_GROUP {
          c.SetResult(SoapFault(DUPLICATE_FOLDER_NAME, "Duplicate folder name."));
        }
      }
      return Null;
    }
    return r;
  }

  /**
   * `get_folders_for_user`: the folders the user may create in, listed
   * with the user's own credentials. Null for an empty username, on
   * failure, and when the service reports no results.
   */
  method GetFoldersForUser(c: SoapClient, username: string, answer: Outcome) returns (folders: Value)
    modifies c
    ensures EmptyString(username) ==> folders == Null && c.request == old(c.request) && c.result == old(c.result)
    ensures !EmptyString(username) ==>
              && c.request == Some(c.RequestFor("GetCreatorFoldersList", ListParams(ListFoldersParam(Null)), username))
              && c.request.value.authUser == username
              && c.result == AfterCall("GetCreatorFoldersList", answer, old(c.result))
              && folders == CreatorFoldersReply(answer)
    ensures answer.Thrown? ==> folders == Null
    ensures folders != Null ==>
              && c.Success()
              && IsPositive(Prop(c.result.value, "TotalNumberResults"))
              && folders == Prop(Prop(c.result.value, "Results"), "Folder")
  {
    if EmptyString(username) {
      return Null;
    }
    var params := ListParams(ListFoldersParam(Null));
    var r := c.CallSoapMethod("GetCreatorFoldersList", params, username, answer);
    NullishIsEmpty(r);
    if c.Success() && !IsNullish(r) && IsPositive(Prop(r, "TotalNumberResults")) {
      return Prop(Prop(r, "Results"), "Folder");
    }
    return Null;
  }

  /**
   * `get_folders_by_courseids`: the folders whose external ids belong to
   * the given courses under this client's identity provider instance.
   */
  method GetFoldersByCourseIds(c: SoapClient, courseids: Ids, answer: Outcome) returns (folders: Value)
    modifies c
    ensures courseids.IsEmpty() ==> folders == Null && c.request == old(c.request) && c.result == old(c.result)
    ensures !courseids.IsEmpty() ==>
              var name := "GetAllFoldersWithExternalContextByExternalId";
              && c.request == Some(c.RequestFor(name, ByExternalIdParams(c.apiinstance, courseids.AsArray()), ""))
              && c.result == AfterCall(name, answer, old(c.result))
              && folders == FolderContextReply(name, answer)
    ensures answer.Thrown? ==> folders == Null
    ensures folders != Null ==> c.Success() && folders == Prop(c.result.value, "FolderWithExternalContext")
  {
    if courseids.IsEmpty() {
      return Null;
    }
    var ids := courseids.AsArray();
    var externalids := ExternalIds(ids);
    var params := map["folderExternalIds" := Strs(externalids), "providerNames" := Strs([c.apiinstance])];
    var r := c.CallSoapMethod("GetAllFoldersWithExternalContextByExternalId", params, "", answer);
    NullishIsEmpty(r);
    if c.Success() && !IsNullish(r) {
      return Prop(r, "FolderWithExternalContext");
    }
    return Null;
  }

  /**
   * `get_recordings_by_folderid`: the recordings of one folder. An empty
   * list when the service reports no results; null for an empty folder id
   * and whenever the call gives back nothing.
   */
  method GetRecordingsByFolderId(c: SoapClient, folderid: string, answer: Outcome) returns (recordings: Value)
    modifies c
    ensures EmptyString(folderid) ==> recordings == Null && c.request == old(c.request) && c.result == old(c.result)
    ensures !EmptyString(folderid) ==>
              && c.request == Some(c.RequestFor("GetSessionsList", ListParams(ListRecordingsParam(Str(folderid))), ""))
              && c.result == AfterCall("GetSessionsList", answer, old(c.result))
    ensures !EmptyString(folderid) ==> recordings == RecordingsReply(answer)
    ensures answer.Thrown? ==> recordings == Null
  {
    if EmptyString(folderid) {
      return Null;
    }
    var params := ListParams(ListRecordingsParam(Str(folderid)));
    var r := c.CallSoapMethod("GetSessionsList", params, "", answer);
    NullishIsEmpty(r);
    if c.Success() && !IsNullish(r) {
      if IsPositive(Prop(r, "TotalNumberResults")) {
        return Prop(Prop(r, "Results"), "Session");
      } else {
        return List([]);
      }
    }
    return Null;
  }

  /**
   * `get_recordings_by_username`: the recordings the user can see, listed
   * with the user's own credentials; same shape as the folder listing.
   */
  method GetRecordingsByUsername(c: SoapClient, username: string, answer: Outcome) returns (recordings: Value)
    modifies c
    ensures EmptyString(username) ==> recordings == Null && c.request == old(c.request) && c.result == old(c.result)
    ensures !EmptyString(username) ==>
              && c.request == Some(c.RequestFor("GetSessionsList", ListParams(ListRecordingsParam(Null)), username))
              && c.request.value.authUser == username
              && c.result == AfterCall("GetSessionsList", answer, old(c.result))
    ensures !EmptyString(username) ==> recordings == RecordingsReply(answer)
    ensures answer.Thrown? ==> recordings == Null
  {
    if EmptyString(username) {
      return Null;
    }
    var params := ListParams(ListRecordingsParam(Null));
    var r := c.CallSoapMethod("GetSessionsList", params, username, answer);
    NullishIsEmpty(r);
    if c.Success() && !IsNullish(r) {
      if IsPositive(Prop(r, "TotalNumberResults")) {
        return Prop(Prop(r, "Results"), "Session");
      } else {
        return List([]);
      }
    }
    return Null;
  }

  /**
   * The answer object after `array_shift($result->Folder)`: its `Folder`
   * list without the first element, every other property as it was.
   */
  function ShiftFolder(v: Value): (w: Value)
    ensures var fs := Prop(v, "Folder");
            fs.List? && |fs.items| > 0 ==>
              && Prop(w, "Folder") == List(fs.items[1..])
              && forall k :: k != "Folder" ==> Prop(w, k) == Prop(v, k)
  {
    var fs := Prop(v, "Folder");
    if fs.List? && |fs.items| > 0 then Obj(v.props["Folder" := List(fs.items[1..])]) else v
  }

  /**
   * `set_folder_groups`: give a folder the access groups of a course. The
   * course-access object is named and keyed by the course's folder external
   * id. The answer is the first folder the service reports, if any; taking
   * it shifts it off the answer object, which the client's last result
   * shares.
   */
  method SetFolderGroups(c: SoapClient, folderid: string, courseid: string, answer: Outcome) returns (folder: Value)
    modifies c
    ensures EmptyString(folderid) || EmptyString(courseid) ==>
              folder == Null && c.request == old(c.request) && c.result == old(c.result)
    ensures !EmptyString(folderid) && !EmptyString(courseid) ==>
              c.request == Some(c.RequestFor("SetExternalCourseAccess", CourseAccessParams(folderid, courseid), ""))
    ensures !EmptyString(folderid) && !EmptyString(courseid) ==>
              var r := Answered("SetExternalCourseAccess", answer);
              var fs := Prop(r, "Folder");
              && (fs.List? && |fs.items| > 0 ==>
                    && folder == fs.items[0]
                    && AfterCall("SetExternalCourseAccess", answer, old(c.result)) == Ok(r)
                    && c.result == Ok(ShiftFolder(r)))
              && (!(fs.List? && |fs.items| > 0) ==>
                    folder == Null && c.result == AfterCall("SetExternalCourseAccess", answer, old(c.result)))
    ensures answer.Thrown? ==> folder == Null
  {
    if EmptyString(folderid) || EmptyString(courseid) {
      return Null;
    }
    var params := map["name" := Str(InstanceFolderExternalId(courseid)),
                      "externalId" := Str(InstanceFolderExternalId(courseid)),
                      "folderIds" := Strs([folderid])];
    var r := c.CallSoapMethod("SetExternalCourseAccess", params, "", answer);
    NullishIsEmpty(r);
    var fs := Prop(r, "Folder");
    if c.Success() && !IsNullish(r) && !Empty(fs) && IsArray(fs) {
      folder := fs.items[0];
      c.result := Ok(ShiftFolder(r));
      return;
    }
    return Null;
  }
}
