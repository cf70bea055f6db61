/** Project roles: GetRole lists every role and keeps the last one whose id
    matches; UpdateRole and DeleteRole resolve the role through GetRole and then
    address it by its decimal id. */
module ProjectRoleService {

  import opened Wrappers
  import opened Decimal
  import opened Http
  import Lookup

  datatype ProjectRole = ProjectRole(id: Int64, name: string, description: string)

  /** The Go zero value, which GetRole starts from. */
  const Zero := ProjectRole(0, "", "")

  /** GetRole's request carries a name too, but only the id is compared. */
  datatype GetRequest = GetRequest(id: Int64, name: string)
  datatype UpdateRequest = UpdateRequest(id: Int64, name: string, description: string)
  datatype DeleteRequest = DeleteRequest(id: Int64)

  /** The JSON object UpdateRole sends. */
  datatype Body = RoleBody(name: string, description: string)

  const ListFailed := "failed to list roles"
  const NotFound := "failed to get role"

  /** GET https://{domain}/rest/api/2/role */
  function ListRequest(conn: JiraServerBase): Request<Body>
  {
    Request(GET, ApiUrl(conn, "role"), [Authorization(conn), AcceptJson], None)
  }

  /** ListRoles: send ListRequest and decode the answer; a failed send is
      reported as "http request returned error". */
  function ListRoles(conn: JiraServerBase, reply: Outcome<seq<ProjectRole>>): (e: Effect<seq<ProjectRole>, Body>)
    ensures e.sent.Some? <==> !reply.BuildFailed?
    ensures e.sent.Some? ==>
      && e.sent.value.verb == GET
      && e.sent.value.url == ApiUrl(conn, "role")
      && e.sent.value.headers == [Authorization(conn), AcceptJson]
    ensures e.result.Ok? <==> reply.Responded? && reply.payload.Decoded?
    ensures e.result.Ok? ==> e.result.value == reply.payload.value
    ensures reply.BuildFailed? ==> e.result == Err(BuildError)
    ensures reply.SendFailed? ==> e.result == Err("http request returned error")
    ensures reply.Responded? && reply.payload.Unreadable? ==> e.result == Err(ReadError)
    ensures reply.Responded? && reply.payload.Malformed? ==> e.result == Err(DecodeError)
  {
    Effect(Decode(reply, "http request returned error"), Sent(ListRequest(conn), reply))
  }

  function HasId(id: Int64): ProjectRole -> bool
  {
    (role: ProjectRole) => role.id == id
  }

  /** `i` is the last position of the listing holding the id. */
  predicate IsLastWithId(s: seq<ProjectRole>, id: Int64, i: int)
  {
    0 <= i < |s| && s[i].id == id && forall j :: i < j < |s| ==> s[j].id != id
  }

  /** A role whose name and description are both empty reads as the zero value. */
  predicate LooksEmpty(role: ProjectRole)
  {
    role.name == "" && role.description == ""
  }

  /** What GetRole returns, given what ListRoles returned: the last role with
      the requested id, reported missing only when both its name and its
      description are empty. */
  function Selected(listed: Result<seq<ProjectRole>>, id: Int64): (r: Result<ProjectRole>)
    ensures listed.Err? ==> r == Err(ListFailed)
    ensures listed.Ok? && r.Err? ==> r.msg == NotFound
    ensures listed.Ok? ==>
      (r.Ok? <==> exists i :: IsLastWithId(listed.value, id, i) && !LooksEmpty(listed.value[i]))
    ensures r.Ok? ==> listed.Ok? && exists i :: IsLastWithId(listed.value, id, i) && r.value == listed.value[i]
  {
    if listed.Err? then Err(ListFailed)
    else
      var found := Lookup.LastOr(listed.value, HasId(id), Zero);
      if LooksEmpty(found) then Err(NotFound) else Ok(found)
  }

  /** GetRole: list the roles, scan them all, and test the selection. */
  method GetRole(listed: Result<seq<ProjectRole>>, req: GetRequest) returns (r: Result<ProjectRole>)
    ensures r == Selected(listed, req.id)
  {
    if listed.Err? {
      return Err(ListFailed);
    }
    var foundRole := Lookup.ScanLast(listed.value, HasId(req.id), Zero);
    if foundRole.name == "" && foundRole.description == "" {
      return Err(NotFound);
    }
    return Ok(foundRole);
  }

  /** UpdateRole: resolve the role, then PUT the caller's name and description
      to the role's item URL. */
  method UpdateRole(conn: JiraServerBase, listed: Result<seq<ProjectRole>>, req: UpdateRequest,
                    reply: Outcome<ProjectRole>)
    returns (r: Result<ProjectRole>, sent: Option<Request<Body>>)
    ensures Selected(listed, req.id).Err? ==> r == Err("role for update not found") && sent == None
    ensures Selected(listed, req.id).Ok? ==> r == Decode(reply, "error result from http request")
    ensures sent.Some? <==> Selected(listed, req.id).Ok? && !reply.BuildFailed?
    ensures sent.Some? ==>
      && sent.value.verb == PUT
      && sent.value.url == ApiUrl(conn, "role/" + FormatInt(req.id))
      && sent.value.headers == [Authorization(conn), ContentTypeJson]
      && sent.value.body == Some(RoleBody(req.name, req.description))
  {
    var role := GetRole(listed, GetRequest(req.id, ""));
    if role.Err? {
      return Err("role for update not found"), None;
    }
    var url := ApiUrl(conn, "role/" + FormatInt(role.value.id));
    sent := Sent(Request(PUT, url, [Authorization(conn), ContentTypeJson], Some(RoleBody(req.name, req.description))), reply);
    r := Decode(reply, "error result from http request");
  }

  /** DeleteRole: resolve the role, then DELETE its item URL; any answer from
      the server, whatever its status, is a success. */
  method DeleteRole(conn: JiraServerBase, listed: Result<seq<ProjectRole>>, req: DeleteRequest,
                    reply: Outcome<Unit>)
    returns (r: Result<Unit>, sent: Option<Request<Body>>)
    ensures Selected(listed, req.id).Err? ==> r == Err("role for delete not found") && sent == None
    ensures Selected(listed, req.id).Ok? ==> r == Complete(reply, "error result from http request")
    ensures sent.Some? <==> Selected(listed, req.id).Ok? && !reply.BuildFailed?
    ensures sent.Some? ==>
      && sent.value.verb == DELETE
      && sent.value.url == ApiUrl(conn, "role/" + FormatInt(req.id))
      && sent.value.headers == [Authorization(conn)]
      && sent.value.body == None
  {
    var role := GetRole(listed, GetRequest(req.id, ""));
    if role.Err? {
      return Err("role for delete not found"), None;
    }
    var url := ApiUrl(conn, "role/" + FormatInt(role.value.id));
    sent := Sent(Request(DELETE, url, [Authorization(conn)], None), reply);
    r := Complete(reply, "error result from http request");
  }

  /** A role with an empty name but a description is still found, unlike a
      permission scheme with an empty name. */
  lemma DescriptionAloneSuffices(s: seq<ProjectRole>, id: Int64, i: int)
    requires IsLastWithId(s, id, i) && s[i].name == "" && s[i].description != ""
    ensures Selected(Ok(s), id) == Ok(s[i])
  {
  }
}
