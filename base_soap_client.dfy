/**
 * The shared part of the two Panopto SOAP clients: the external-key and
 * external-id naming scheme, and the low-level call that classifies what
 * the transport answered and remembers the last result and request.
 */
module BaseSoapClient {
  import opened Php

  /** Folder role enumeration used to address access groups. */
  const FOLDER_ROLE_VIEWER: int := 1
  const FOLDER_ROLE_CREATOR: int := 2
  const FOLDER_ROLE_PUBLISHER: int := 3

  /** The role word inside a group external id; every unknown role is a viewer role. */
  function RoleWord(role: int): (w: string)
    ensures w == "creators" || w == "publishers" || w == "viewers"
    ensures w == "creators" <==> role == FOLDER_ROLE_CREATOR
    ensures w == "publishers" <==> role == FOLDER_ROLE_PUBLISHER
  {
    if role == FOLDER_ROLE_CREATOR then "creators"
    else if role == FOLDER_ROLE_PUBLISHER then "publishers"
    else "viewers"
  }

  /** The role word inside a group display name; every unknown role is a viewer role. */
  function RoleTitle(role: int): (w: string)
    ensures w == "Creators" || w == "Publishers" || w == "Viewers"
    ensures w == "Creators" <==> role == FOLDER_ROLE_CREATOR
    ensures w == "Publishers" <==> role == FOLDER_ROLE_PUBLISHER
  {
    if role == FOLDER_ROLE_CREATOR then "Creators"
    else if role == FOLDER_ROLE_PUBLISHER then "Publishers"
    else "Viewers"
  }

  /** The Panopto user key of a Moodle user: `<instance>\<username>`. */
  function InstanceUsername(instance: string, username: string): (key: string)
    ensures |key| == |instance| + 1 + |username|
    ensures key[..|instance|] == instance && key[|instance|] == '\\'
    ensures key[|instance| + 1..] == username
  {
    instance + "\\" + username
  }

  /** The external id of the folder of a Moodle course: `course-id:<courseid>`. */
  function InstanceFolderExternalId(courseid: string): (id: string)
    ensures |id| == 10 + |courseid|
    ensures id[..10] == "course-id:" && id[10..] == courseid
  {
    "course-id:" + courseid
  }

  /** The external id of an access group: the folder external id, `_`, and the role word. */
  function InstanceGroupExternalId(courseid: string, role: int): (id: string)
    ensures |id| == |InstanceFolderExternalId(courseid)| + 1 + |RoleWord(role)|
    ensures id[..|InstanceFolderExternalId(courseid)|] == InstanceFolderExternalId(courseid)
    ensures var tail := id[|InstanceFolderExternalId(courseid)|..];
      && (tail == "_creators" <==> role == FOLDER_ROLE_CREATOR)
      && (tail == "_publishers" <==> role == FOLDER_ROLE_PUBLISHER)
      && (tail == "_viewers" <==> role != FOLDER_ROLE_CREATOR && role != FOLDER_ROLE_PUBLISHER)
  {
    var id := InstanceFolderExternalId(courseid) + "_" + RoleWord(role);
    assert id[|InstanceFolderExternalId(courseid)|..] == "_" + RoleWord(role);
    id
  }

  /** The display name of an access group: `extgroup-course-id:<courseid>::<Role>`. */
  function InstanceGroupExternalName(courseid: string, role: int): (name: string)
    ensures |name| == 21 + |courseid| + |RoleTitle(role)|
    ensures name[..19] == "extgroup-course-id:" && name[19..19 + |courseid|] == courseid
    ensures var tail := name[19 + |courseid|..];
      && (tail == "::Creators" <==> role == FOLDER_ROLE_CREATOR)
      && (tail == "::Publishers" <==> role == FOLDER_ROLE_PUBLISHER)
      && (tail == "::Viewers" <==> role != FOLDER_ROLE_CREATOR && role != FOLDER_ROLE_PUBLISHER)
  {
    var prefix := "extgroup-course-id:" + courseid;
    var name := prefix + "::" + RoleTitle(role);
    assert name[..19] == prefix[..19];
    assert name[19..19 + |courseid|] == prefix[19..];
    assert name[19 + |courseid|..] == "::" + RoleTitle(role);
    name
  }

  /** Within one identity provider instance, distinct usernames get distinct user keys. */
  lemma InstanceUsernameInjective(instance: string, u1: string, u2: string)
    requires InstanceUsername(instance, u1) == InstanceUsername(instance, u2)
    ensures u1 == u2
  {
    var key := InstanceUsername(instance, u1);
    assert u1 == key[|instance| + 1..];
  }

  /** Distinct course ids get distinct folder external ids. */
  lemma FolderExternalIdInjective(c1: string, c2: string)
    requires InstanceFolderExternalId(c1) == InstanceFolderExternalId(c2)
    ensures c1 == c2
  {
    assert c1 == InstanceFolderExternalId(c1)[10..];
  }

  /** The last k characters of a concatenation are those of its second part. */
  lemma TailOfConcat(a: string, b: string, k: nat)
    requires k <= |b|
    ensures (a + b)[|a + b| - k..] == b[|b| - k..]
  {
  }

  /** The last four characters of a role word tell the three words apart. */
  lemma RoleWordTail(role1: int, role2: int)
    ensures RoleWord(role1)[|RoleWord(role1)| - 4..] == RoleWord(role2)[|RoleWord(role2)| - 4..] ==>
              RoleWord(role1) == RoleWord(role2)
  {
  }

  /** A group external id ends in the last four characters of its role word. */
  lemma GroupExternalIdTail(courseid: string, role: int)
    ensures var id := InstanceGroupExternalId(courseid, role);
            id[|id| - 4..] == RoleWord(role)[|RoleWord(role)| - 4..]
  {
    TailOfConcat(InstanceFolderExternalId(courseid) + "_", RoleWord(role), 4);
  }

  /**
   * A group external id determines both its course id and its role word,
   * whatever characters the course ids contain.
   */
  lemma {:induction false} GroupExternalIdInjective(c1: string, r1: int, c2: string, r2: int)
    requires InstanceGroupExternalId(c1, r1) == InstanceGroupExternalId(c2, r2)
    ensures c1 == c2 && RoleWord(r1) == RoleWord(r2)
  {
    var id := InstanceGroupExternalId(c1, r1);
    GroupExternalIdTail(c1, r1);
    GroupExternalIdTail(c2, r2);
    RoleWordTail(r1, r2);
    assert RoleWord(r1) == RoleWord(r2);
    assert c1 == id[10..10 + |c1|] == c2;
  }

  /** The creators, publishers and viewers groups of one course have three distinct ids. */
  lemma CourseGroupIdsDistinct(courseid: string)
    ensures InstanceGroupExternalId(courseid, FOLDER_ROLE_CREATOR) != InstanceGroupExternalId(courseid, FOLDER_ROLE_VIEWER)
    ensures InstanceGroupExternalId(courseid, FOLDER_ROLE_CREATOR) != InstanceGroupExternalId(courseid, FOLDER_ROLE_PUBLISHER)
    ensures InstanceGroupExternalId(courseid, FOLDER_ROLE_PUBLISHER) != InstanceGroupExternalId(courseid, FOLDER_ROLE_VIEWER)
  {
    if InstanceGroupExternalId(courseid, FOLDER_ROLE_CREATOR) == InstanceGroupExternalId(courseid, FOLDER_ROLE_VIEWER) {
      GroupExternalIdInjective(courseid, FOLDER_ROLE_CREATOR, courseid, FOLDER_ROLE_VIEWER);
    }
    if InstanceGroupExternalId(courseid, FOLDER_ROLE_CREATOR) == InstanceGroupExternalId(courseid, FOLDER_ROLE_PUBLISHER) {
      GroupExternalIdInjective(courseid, FOLDER_ROLE_CREATOR, courseid, FOLDER_ROLE_PUBLISHER);
    }
    if InstanceGroupExternalId(courseid, FOLDER_ROLE_PUBLISHER) == InstanceGroupExternalId(courseid, FOLDER_ROLE_VIEWER) {
      GroupExternalIdInjective(courseid, FOLDER_ROLE_PUBLISHER, courseid, FOLDER_ROLE_VIEWER);
    }
  }

  /** The last four characters of a role title tell the three titles apart. */
  lemma RoleTitleTail(role1: int, role2: int)
    ensures RoleTitle(role1)[|RoleTitle(role1)| - 4..] == RoleTitle(role2)[|RoleTitle(role2)| - 4..] ==>
              RoleTitle(role1) == RoleTitle(role2)
  {
  }

  /** A group display name ends in the last four characters of its role title. */
  lemma GroupExternalNameTail(courseid: string, role: int)
    ensures var name := InstanceGroupExternalName(courseid, role);
            name[|name| - 4..] == RoleTitle(role)[|RoleTitle(role)| - 4..]
  {
    TailOfConcat("extgroup-course-id:" + courseid + "::", RoleTitle(role), 4);
  }

  /** A group display name determines both its course id and its role title. */
  lemma {:induction false} GroupExternalNameInjective(c1: string, r1: int, c2: string, r2: int)
    requires InstanceGroupExternalName(c1, r1) == InstanceGroupExternalName(c2, r2)
    ensures c1 == c2 && RoleTitle(r1) == RoleTitle(r2)
  {
    var name := InstanceGroupExternalName(c1, r1);
    GroupExternalNameTail(c1, r1);
    GroupExternalNameTail(c2, r2);
    RoleTitleTail(r1, r2);
    assert RoleTitle(r1) == RoleTitle(r2);
    assert c1 == name[19..19 + |c1|] == c2;
  }

  /** What a failed call leaves behind: a SoapFault, or any other Exception. */
  datatype Failure =
    | SoapFault(faultcode: string, faultstring: string)
    | Exception(message: string)
  {
    /** `getMessage()`; the message of a SoapFault is its fault string. */
    function Message(): string
    {
      if SoapFault? then faultstring else message
    }
  }

  /** The last result: the value of the last call (null for a void call), or its failure. */
  datatype LastResult = Ok(value: Value) | Failed(failure: Failure)

  /** A request as handed to the transport: method, user it authenticates as, parameters. */
  datatype SoapRequest = SoapRequest(methodName: string, authUser: string, params: map<string, Value>)

  /** What the transport gives back for one call: the decoded response object, or a thrown failure. */
  datatype Outcome = Returned(response: map<string, Value>) | Thrown(failure: Failure)

  /** The property of a response that carries the method's named result, `<method>Result`. */
  function NamedResult(methodname: string, response: map<string, Value>): Value
  {
    var name := methodname + "Result";
    if name in response then response[name] else Null
  }

  /** An object without properties, which the call treats as an empty search result. */
  predicate IsEmptyObject(v: Value)
  {
    v.Obj? && |v.props| == 0
  }

  /**
   * The value `call_soap_method` hands back for the transport's answer: null
   * for a failure, a void response or a named result that is an object
   * without properties; the named result when it is not empty; otherwise the
   * whole response object. It is never a non-null empty() value.
   */
  function Answered(methodname: string, answer: Outcome): (r: Value)
    ensures r != Null ==> !Empty(r) && answer.Returned? && |answer.response| > 0
    ensures answer.Thrown? ==> r == Null
  {
    match answer
    case Thrown(_) => Null
    case Returned(response) =>
      var named := NamedResult(methodname, response);
      if |response| == 0 then Null
      else if Empty(named) then Obj(response)
      else if IsEmptyObject(named) then Null
      else named
  }

  /**
   * The last result after `call_soap_method` reached the transport: the
   * failure, null for a void call, the returned value, or, for a named
   * result that is an object without properties, the previous last result.
   */
  function AfterCall(methodname: string, answer: Outcome, prev: LastResult): (lr: LastResult)
    ensures Answered(methodname, answer) != Null ==> lr == Ok(Answered(methodname, answer))
    ensures lr.Failed? ==> answer.Thrown? || lr == prev
  {
    match answer
    case Thrown(failure) => Failed(failure)
    case Returned(response) =>
      var named := NamedResult(methodname, response);
      if |response| == 0 then Ok(Null)
      else if Empty(named) then Ok(Obj(response))
      else if IsEmptyObject(named) then prev
      else Ok(named)
  }

  /**
   * A client of one Panopto SOAP endpoint. The transport itself is not
   * modelled: every call is given the transport's answer as a parameter.
   */
  class SoapClient {
    const apihost: string
    const apiinstance: string
    const apiuser: string
    const apikey: string

    /** The last request handed to the transport (none before the first call). */
    var request: Option<SoapRequest>

    /** The result of the last call that updated it. */
    var result: LastResult

    constructor (apihost: string, apiinstance: string, apiuser: string, apikey: string)
      ensures this.apihost == apihost && this.apiinstance == apiinstance
      ensures this.apiuser == apiuser && this.apikey == apikey
      ensures request == None && result == Ok(Null) && Success()
    {
      this.apihost := apihost;
      this.apiinstance := apiinstance;
      this.apiuser := apiuser;
      this.apikey := apikey;
      request := None;
      result := Ok(Null);
    }

    /** `result()`: the result of the last call. */
    function Result(): (r: LastResult)
      reads this
      ensures r == result
    {
      result
    }

    /** `success()`: the last result is neither a SoapFault nor an Exception. */
    predicate Success()
      reads this
    {
      !result.Failed?
    }

    /** `request()`: the last request. */
    function Request(): (r: Option<SoapRequest>)
      reads this
      ensures r == request
    {
      request
    }

    /**
     * The request a call hands to the transport: an empty alternate
     * username means the configured API user authenticates the call.
     */
    function RequestFor(methodname: string, params: map<string, Value>, authusername: string): (req: SoapRequest)
      ensures req.methodName == methodname && req.params == params
      ensures req.authUser == if EmptyString(authusername) then apiuser else authusername
    {
      SoapRequest(methodname, if EmptyString(authusername) then apiuser else authusername, params)
    }

    /** `set_result`: replace the last result with a more descriptive fault. */
    method SetResult(fault: Failure)
      requires fault.SoapFault?
      modifies this`result
      ensures result == Failed(fault) && !Success()
    {
      result := Failed(fault);
    }

    /**
     * `call_soap_method`. An empty method name reaches no transport and
     * changes nothing. Otherwise the request is always recorded, and the
     * answer is classified: a failure is stored and null returned; a
     * response without properties is a void call (result null); a
     * non-empty named result is stored and returned, except that a named
     * result which is an object without properties returns null and leaves
     * the last result as it was; any other response is stored whole.
     */
    method CallSoapMethod(methodname: string, params: map<string, Value>, authusername: string, answer: Outcome)
      returns (r: Value)
      modifies this
      ensures EmptyString(methodname) ==> r == Null && request == old(request) && result == old(result)
      ensures !EmptyString(methodname) ==> request == Some(RequestFor(methodname, params, authusername))
      ensures !EmptyString(methodname) && answer.Thrown? ==>
                r == Null && result == Failed(answer.failure) && !Success()
      ensures !EmptyString(methodname) && answer.Returned? && |answer.response| == 0 ==>
                r == Null && result == Ok(Null) && Success()
      ensures !EmptyString(methodname) && answer.Returned? && |answer.response| > 0 ==>
                var named := NamedResult(methodname, answer.response);
                if Empty(named) then r == Obj(answer.response) && result == Ok(r)
                else if IsEmptyObject(named) then r == Null && result == old(result)
                else r == named && result == Ok(r)
      ensures r != Null ==> result == Ok(r) && Success() && !Empty(r)
      ensures !EmptyString(methodname) ==>
                r == Answered(methodname, answer) && result == AfterCall(methodname, answer, old(result))
    {
      if EmptyString(methodname) {
        return Null;
      }
      var auth := if EmptyString(authusername) then apiuser else authusername;
      match answer {
      case Thrown(failure) =>
        result := Failed(failure);
        r := Null;
      case Returned(response) =>
        var named := NamedResult(methodname, response);
        if |response| == 0 {
          result := Ok(Null);
          r := result.value;
        } else if !Empty(named) {
          if IsEmptyObject(named) {
            r := Null;
          } else {
            result := Ok(named);
            r := result.value;
          }
        } else {
          result := Ok(Obj(response));
          r := result.value;
        }
      }
      request := Some(SoapRequest(methodname, auth, params));
    }
  }
}
